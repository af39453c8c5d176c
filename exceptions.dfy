/**
 * The exception hierarchy of guts/exception.py: each class's HTTP code and
 * message template (both inherited from the nearest ancestor that sets
 * them), the `%(name)s` formatting of templates and the construction of a
 * GutsException; plus the other exceptions the modelled code raises.
 */
module Exceptions {
  import opened Wrappers
  import opened PyValues
  import Strings

  datatype Kind =
    // classes of guts/exception.py
    | GutsException | NotAuthorized | AdminRequired | PolicyNotAuthorized
    | NotFound | ConfigNotFound | PasteAppNotFound | SourceTypeNotFound
    | SourceTypeNotFoundByName | VMNotFound | VMNotFoundByName | ServiceNotFound
    | Duplicate | SourceTypeExists | Invalid | InvalidContentType | InvalidInput
    | InvalidSource | InvalidSourceType | SourceNotFound | SourceNotFoundByName
    | SourceExists | MalformedRequestBody | MigrationCreateFailed | MigrationNotFound
    | MigrationNotFoundByName | MigrationExists | SourceCreateFailed
    | SourceTypeCreateFailed | SourceTypeDriverNotFound | HostBinaryNotFound
    | OrphanedObjectError | ObjectActionError | Error
    // raised through `exception.` by the modelled code, but not defined in guts/exception.py
    | ResourceNotFound | HypervisorNotFound | ServiceExists | NetworkCreationFailed
    | VolumeCreationFailed | InstanceImageDownloadFailed | VolumeDownloadFailed
    | OpenStackException | SchedulerHostFilterNotFound | SchedulerHostWeigherNotFound
    | InvalidParameterValue
    // Python built-ins and library exceptions
    | PlainException | NotImplementedError | KeyError | IndexError | ValueError
    | TypeError | AttributeError | NameError | UnboundLocalError
    | DBError | DBDuplicateEntry | InvalidRequestError | HTTPBadRequest | HTTPNotFound
    | ProcessExecutionError

  /** A raised exception: its class and the text it carries. */
  datatype Exc = Exc(kind: Kind, detail: string)

  datatype Result<T> = Ok(value: T) | Err(error: Exc)

  datatype Outcome = Pass | Fail(error: Exc)

  function Raise(kind: Kind, detail: string): Outcome
  {
    Fail(Exc(kind, detail))
  }

  // ---------------------------------------------------------------------
  // the class hierarchy of guts/exception.py
  // ---------------------------------------------------------------------

  /** Distance from GutsException in the hierarchy. */
  function Depth(k: Kind): nat
  {
    match k
    case GutsException => 0
    case NotAuthorized | NotFound | ConfigNotFound | Duplicate | Invalid
      | MalformedRequestBody | MigrationCreateFailed | SourceCreateFailed
      | SourceTypeCreateFailed | OrphanedObjectError | ObjectActionError => 1
    case AdminRequired | PolicyNotAuthorized | PasteAppNotFound | SourceTypeNotFound
      | VMNotFound | VMNotFoundByName | ServiceNotFound | SourceTypeExists
      | InvalidContentType | InvalidInput | InvalidSource | InvalidSourceType
      | SourceNotFound | SourceExists | MigrationNotFound | MigrationExists
      | SourceTypeDriverNotFound | HostBinaryNotFound => 2
    case SourceTypeNotFoundByName | SourceNotFoundByName | MigrationNotFoundByName => 3
    case _ => 0
  }

  /** The base class a class of guts/exception.py derives from. */
  function Parent(k: Kind): (p: Option<Kind>)
    ensures p.Some? ==> Depth(p.value) < Depth(k)
    ensures p.Some? ==> p.value in {GutsException, NotAuthorized, NotFound, SourceTypeNotFound, SourceNotFound, Duplicate, Invalid}
  {
    match k
    case NotAuthorized | NotFound | ConfigNotFound | Duplicate | Invalid
      | MalformedRequestBody | MigrationCreateFailed | SourceCreateFailed
      | SourceTypeCreateFailed | OrphanedObjectError | ObjectActionError => Some(GutsException)
    case AdminRequired | PolicyNotAuthorized => Some(NotAuthorized)
    case PasteAppNotFound | SourceTypeNotFound | VMNotFound | VMNotFoundByName
      | ServiceNotFound | SourceNotFound | MigrationNotFound | SourceTypeDriverNotFound
      | HostBinaryNotFound => Some(NotFound)
    case SourceTypeNotFoundByName => Some(SourceTypeNotFound)
    case SourceNotFoundByName | MigrationNotFoundByName => Some(SourceNotFound)
    case SourceTypeExists | SourceExists | MigrationExists => Some(Duplicate)
    case InvalidContentType | InvalidInput | InvalidSource | InvalidSourceType => Some(Invalid)
    case _ => None
  }

  /** Whether `k` is GutsException or one of its subclasses. */
  predicate IsGuts(k: Kind)
  {
    k == GutsException || Parent(k).Some?
  }

  /** `issubclass(k, ancestor)`. */
  predicate IsA(k: Kind, ancestor: Kind)
    decreases Depth(k)
  {
    k == ancestor || (Parent(k).Some? && IsA(Parent(k).value, ancestor))
  }

  /** The `code` a class sets itself. */
  function OwnCode(k: Kind): Option<int>
  {
    match k
    case GutsException => Some(500)
    case NotAuthorized => Some(403)
    case NotFound => Some(404)
    case Invalid => Some(400)
    case _ => None
  }

  /** The `message` a class sets itself (ObjectActionError sets `msg_fmt` instead). */
  function OwnMessage(k: Kind): Option<string>
  {
    match k
    case GutsException => Some("An unknown exception occurred.")
    case NotAuthorized => Some("Not authorized.")
    case AdminRequired => Some("User does not have admin privileges")
    case PolicyNotAuthorized => Some("Policy doesn't allow %(action)s to be performed.")
    case NotFound => Some("Resource could not be found.")
    case ConfigNotFound => Some("Could not find config at %(path)s")
    case PasteAppNotFound => Some("Could not load paste app '%(name)s' from %(path)s")
    case SourceTypeNotFound => Some("Source type %(source_type_id)s could not be found.")
    case SourceTypeNotFoundByName => Some("Source type with name %(source_type_name)s could not be found.")
    case VMNotFound => Some("Could not find VM with id '%(vm_id)s'")
    case VMNotFoundByName => Some("Could not find VM with name '%(vm_name)s'")
    case ServiceNotFound => Some("Service %(service_id)s could not be found.")
    case SourceTypeExists => Some("Source Type %(id)s already exists.")
    case Invalid => Some("Unacceptable parameters.")
    case InvalidContentType => Some("Invalid content type %(content_type)s.")
    case InvalidInput => Some("Invalid input received: %(reason)s")
    case InvalidSource => Some("Invalid source: %(reason)s.")
    case InvalidSourceType => Some("Invalid source type: %(reason)s.")
    case SourceNotFound => Some("Source %(source_id)s could not be found.")
    case SourceNotFoundByName => Some("Source with name %(source_name)s could not be found.")
    case SourceExists => Some("Source %(id)s already exists.")
    case MalformedRequestBody => Some("Malformed message body: %(reason)s")
    case MigrationCreateFailed => Some("Failed to create migration %(name)s")
    case MigrationNotFound => Some("Migration %(migration_id)s could not be found.")
    case MigrationNotFoundByName => Some("Migration with name %(migration_name)s could not be found.")
    case MigrationExists => Some("Migration %(id)s already exists.")
    case SourceCreateFailed => Some("Failed to create source %(name)s")
    case SourceTypeCreateFailed => Some("Failed to create source type %(name)s")
    case SourceTypeDriverNotFound => Some("Source Type Driver %(type_driver)s could not be found.")
    case HostBinaryNotFound => Some("Could not find binary %(binary)s on host %(host)s.")
    case OrphanedObjectError => Some("Cannot call %(method)s on orphaned %(objtype)s object")
    case _ => None
  }

  /** The class attribute `code`, looked up along the base classes. */
  function Code(k: Kind): int
    requires IsGuts(k)
    decreases Depth(k)
  {
    if OwnCode(k).Some? then OwnCode(k).value
    else if Parent(k).Some? then Code(Parent(k).value)
    else 500
  }

  /** The class attribute `message`, looked up along the base classes. */
  function Template(k: Kind): string
    requires IsGuts(k)
    decreases Depth(k)
  {
    if OwnMessage(k).Some? then OwnMessage(k).value
    else if Parent(k).Some? then (BasesAreGuts(k); Template(Parent(k).value))
    else "An unknown exception occurred."
  }

  /** Every base class named in the hierarchy is GutsException or one of its subclasses. */
  lemma BasesAreGuts(k: Kind)
    requires Parent(k).Some?
    ensures IsGuts(Parent(k).value)
  {
    var p := Parent(k).value;
    assert p in {GutsException, NotAuthorized, NotFound, SourceTypeNotFound, SourceNotFound, Duplicate, Invalid};
    if p != GutsException {
      assert Parent(p) == Some(GutsException) || Parent(p) == Some(NotFound);
    }
  }

  /** A class no class derives from is caught only by its own `except` clause. */
  lemma {:induction false} LeafCaughtOnlyBySelf(k: Kind, leaf: Kind)
    requires leaf !in {GutsException, NotAuthorized, NotFound, SourceTypeNotFound, SourceNotFound, Duplicate, Invalid}
    ensures IsA(k, leaf) <==> k == leaf
    decreases Depth(k)
  {
    if Parent(k).Some? {
      LeafCaughtOnlyBySelf(Parent(k).value, leaf);
    }
  }

  lemma {:induction false} AncestorIsGuts(k: Kind, ancestor: Kind)
    requires IsGuts(ancestor) && IsA(k, ancestor)
    ensures IsGuts(k)
    decreases Depth(k)
  {
  }

  /**
   * No subclass of NotFound, NotAuthorized or Invalid overrides `code`, so
   * every one of them answers with its family's HTTP code; every other class
   * answers 500.
   */
  lemma CodeByFamily(k: Kind)
    requires IsGuts(k)
    ensures IsA(k, NotFound) ==> Code(k) == 404
    ensures IsA(k, NotAuthorized) ==> Code(k) == 403
    ensures IsA(k, Invalid) ==> Code(k) == 400
    ensures !IsA(k, NotFound) && !IsA(k, NotAuthorized) && !IsA(k, Invalid) ==> Code(k) == 500
  {
    assert OwnCode(NotFound) == Some(404) && OwnCode(NotAuthorized) == Some(403) && OwnCode(Invalid) == Some(400);
    FamilyCode(k, NotFound);
    FamilyCode(k, NotAuthorized);
    FamilyCode(k, Invalid);
    OtherCode(k);
  }

  /** A subclass of a class that sets `code` answers with that code, unless a class between them sets one. */
  lemma {:induction false} FamilyCode(k: Kind, root: Kind)
    requires IsGuts(k) && (root == NotFound || root == NotAuthorized || root == Invalid)
    ensures IsA(k, root) ==> Code(k) == OwnCode(root).value
    decreases Depth(k)
  {
    if OwnCode(k).None? {
      NoOwnCode(k);
      CodeInherited(k);
      IsAStep(k, root);
      FamilyCode(Parent(k).value, root);
    } else {
      RootCodes(k);
    }
  }

  /** Outside the three families, the code is GutsException's. */
  lemma {:induction false} OtherCode(k: Kind)
    requires IsGuts(k)
    ensures !IsA(k, NotFound) && !IsA(k, NotAuthorized) && !IsA(k, Invalid) ==> Code(k) == 500
    decreases Depth(k)
  {
    if OwnCode(k).None? {
      NoOwnCode(k);
      CodeInherited(k);
      IsAStep(k, NotFound);
      IsAStep(k, NotAuthorized);
      IsAStep(k, Invalid);
      OtherCode(Parent(k).value);
    } else {
      RootCodes(k);
    }
  }

  /** The four classes that set `code` themselves. */
  lemma RootCodes(k: Kind)
    requires OwnCode(k).Some?
    ensures IsA(k, NotFound) <==> k == NotFound
    ensures IsA(k, NotAuthorized) <==> k == NotAuthorized
    ensures IsA(k, Invalid) <==> k == Invalid
    ensures Code(k) == OwnCode(k).value
    ensures k == NotFound || k == NotAuthorized || k == Invalid || k == GutsException
  {
    assert k == NotFound || k == NotAuthorized || k == Invalid || k == GutsException;
    if k != GutsException {
      assert Parent(k) == Some(GutsException);
    }
  }

  /** A class that does not set `code` is none of the four that do. */
  lemma NoOwnCode(k: Kind)
    requires OwnCode(k).None?
    ensures k != NotFound && k != NotAuthorized && k != Invalid && k != GutsException
  {
  }

  /** A class that does not set `code` has its base class's. */
  lemma CodeInherited(k: Kind)
    requires IsGuts(k) && OwnCode(k).None?
    ensures Parent(k).Some? && IsGuts(Parent(k).value) && Code(k) == Code(Parent(k).value)
  {
    BasesAreGuts(k);
  }

  /** A class other than `ancestor` derives from it exactly when its base class does. */
  lemma IsAStep(k: Kind, ancestor: Kind)
    requires Parent(k).Some? && k != ancestor
    ensures IsA(k, ancestor) == IsA(Parent(k).value, ancestor)
  {
  }

  // ---------------------------------------------------------------------
  // `template % kwargs`
  // ---------------------------------------------------------------------

  /** The position of the first `c` in `s`. */
  function IndexOf(s: string, c: char): (r: Option<nat>)
    ensures r.Some? ==> r.value < |s| && s[r.value] == c && c !in s[..r.value]
    ensures r.None? ==> c !in s
    decreases |s|
  {
    if s == [] then None
    else if s[0] == c then Some(0)
    else
      var rest := IndexOf(s[1..], c);
      if rest.None? then None else Some(rest.value + 1)
  }

  /**
   * `template % args` for templates whose conversions are `%(name)s` and
   * `%%`; a missing key is a KeyError, any other conversion a ValueError.
   */
  function Format(template: string, args: Dict): Result<string>
    decreases |template|
  {
    if template == [] then Ok("")
    else if template[0] != '%' then
      var rest := Format(template[1..], args);
      if rest.Err? then rest else Ok([template[0]] + rest.value)
    else if |template| >= 2 && template[1] == '%' then
      var rest := Format(template[2..], args);
      if rest.Err? then rest else Ok("%" + rest.value)
    else if |template| >= 2 && template[1] == '(' then
      var close := IndexOf(template[2..], ')');
      if close.None? then Err(Exc(ValueError, "incomplete format key"))
      else
        var key := template[2..2 + close.value];
        var after := template[2 + close.value + 1..];
        if after == [] || after[0] != 's' then Err(Exc(ValueError, "unsupported format character"))
        else if key !in args then Err(Exc(KeyError, key))
        else
          var rest := Format(after[1..], args);
          if rest.Err? then rest else Ok(Render(args[key]) + rest.value)
    else Err(Exc(ValueError, "unsupported format character"))
  }

  /** Text without `%` formats to itself. */
  lemma {:induction false} FormatPlain(text: string, args: Dict)
    requires '%' !in text
    ensures Format(text, args) == Ok(text)
    decreases |text|
  {
    if text != [] {
      assert '%' !in text[1..];
      FormatPlain(text[1..], args);
      assert [text[0]] + text[1..] == text;
    }
  }

  /** A `%(key)s` placeholder is replaced by the rendered argument. */
  lemma FormatPlaceholder(before: string, key: string, after: string, args: Dict)
    requires '%' !in before && ')' !in key && key in args
    ensures Format(before + "%(" + key + ")s" + after, args) ==
            (var rest := Format(after, args);
             if rest.Err? then rest else Ok(before + Render(args[key]) + rest.value))
  {
    var placeholder := "%(" + key + ")s" + after;
    PlaceholderAppended(before, key, after);
    FormatPlainPrefix(before, placeholder, args);
    FormatPlaceholderFirst(key, after, args);
    PrefixRendered(before, Render(args[key]), Format(after, args));
  }

  /** The placeholder and the text after it, taken as one tail. */
  lemma PlaceholderAppended(before: string, key: string, after: string)
    ensures before + "%(" + key + ")s" + after == before + ("%(" + key + ")s" + after)
  {
  }

  /** Putting `before` in front of `v` in front of a formatted rest, step by step or at once. */
  lemma PrefixRendered(before: string, v: string, rest: Result<string>)
    ensures (var inner := if rest.Err? then rest else Ok(v + rest.value);
             if inner.Err? then inner else Ok(before + inner.value)) ==
            (if rest.Err? then rest else Ok(before + v + rest.value))
  {
    if rest.Ok? {
      assert before + (v + rest.value) == before + v + rest.value;
    }
  }

  /** Text without `%` in front of a template is copied in front of its result. */
  lemma {:induction false} FormatPlainPrefix(before: string, tail: string, args: Dict)
    requires '%' !in before
    ensures Format(before + tail, args) ==
            (var rest := Format(tail, args); if rest.Err? then rest else Ok(before + rest.value))
    decreases |before|
  {
    if before == [] {
      assert before + tail == tail;
      var rest := Format(tail, args);
      if rest.Ok? {
        assert before + rest.value == rest.value;
      }
    } else {
      var t := before[1..] + tail;
      assert before + tail == [before[0]] + t;
      assert '%' !in before[1..];
      FormatPlainPrefix(before[1..], tail, args);
      FormatPlainFirst(before[0], t, args);
      var rest := Format(tail, args);
      if rest.Ok? {
        assert [before[0]] + (before[1..] + rest.value) == before + rest.value;
      }
    }
  }

  /** A character other than `%` is copied. */
  lemma FormatPlainFirst(c: char, tail: string, args: Dict)
    requires c != '%'
    ensures Format([c] + tail, args) ==
            (var rest := Format(tail, args); if rest.Err? then rest else Ok([c] + rest.value))
  {
    assert ([c] + tail)[1..] == tail;
  }

  /** A template that starts with `%(key)s`. */
  lemma FormatPlaceholderFirst(key: string, after: string, args: Dict)
    requires ')' !in key && key in args
    ensures Format("%(" + key + ")s" + after, args) ==
            (var rest := Format(after, args); if rest.Err? then rest else Ok(Render(args[key]) + rest.value))
  {
    PlaceholderParts(key, after);
  }

  /** Where `Format` finds the key, the closing parenthesis and the conversion in `%(key)s` followed by text. */
  lemma PlaceholderParts(key: string, after: string)
    requires ')' !in key
    ensures var t := "%(" + key + ")s" + after;
            && |t| >= 2 && t[0] == '%' && t[1] == '('
            && IndexOf(t[2..], ')') == Some(|key|)
            && t[2..2 + |key|] == key
            && t[2 + |key| + 1..] == "s" + after
            && (t[2 + |key| + 1..])[1..] == after
  {
    var t := "%(" + key + ")s" + after;
    assert t[2..] == key + (")s" + after);
    IndexOfAfter(key, ")s" + after, ')');
    assert t[2 + |key| + 1..] == "s" + after;
  }

  lemma {:induction false} IndexOfAfter(prefix: string, rest: string, c: char)
    requires c !in prefix && rest != [] && rest[0] == c
    ensures IndexOf(prefix + rest, c) == Some(|prefix|)
    decreases |prefix|
  {
    if prefix == [] {
      assert prefix + rest == rest;
    } else {
      assert (prefix + rest)[1..] == prefix[1..] + rest;
      IndexOfAfter(prefix[1..], rest, c);
    }
  }

  // ---------------------------------------------------------------------
  // GutsException.__init__
  // ---------------------------------------------------------------------

  /** A constructed GutsException: its `kwargs` and its `msg`. */
  datatype Raised = Raised(kind: Kind, kwargs: Dict, msg: Value)

  /** `six.text_type(v)` for exception values, other values unchanged. */
  function Textual(v: Value): Value
  {
    if v.VExc? then VStr(v.text) else v
  }

  /** The `kwargs` once `message` and `code` are filled in, before exceptions become text. */
  function FilledKwargs(k: Kind, message: Value, kwargs: Dict): Dict
    requires IsGuts(k)
  {
    var withMessage := kwargs["message" := message];
    if "code" in withMessage then withMessage else withMessage["code" := VInt(Code(k))]
  }

  /** `_should_format`: no message was given, or the template interpolates one. */
  predicate ShouldFormat(template: string, kwargs: Dict)
  {
    Get(kwargs, "message") == VNone || Strings.Occurs(template, "%(message)")
  }

  /**
   * What the constructor computes once its `kwargs` are final, given the
   * class template and the outcome of formatting it.
   */
  function Finish(k: Kind, template: string, message: Value, kwargs: Dict, formatted: Result<string>, fatal: bool): Result<Raised>
  {
    if ShouldFormat(template, kwargs) then
      if formatted.Ok? then Ok(Raised(k, kwargs, VStr(formatted.value)))
      else if fatal then Err(formatted.error)
      else Ok(Raised(k, kwargs, VStr(template)))
    else if message.VExc? then Ok(Raised(k, kwargs, VStr(message.text)))
    else Ok(Raised(k, kwargs, message))
  }

  /**
   * GutsException(message, **kwargs): `message` and the class `code` are
   * added to `kwargs`, exception values in `kwargs` become their text, and
   * the message is formatted from the template when `_should_format` holds.
   * `fatal` is the `fatal_exception_format_errors` option.
   */
  method NewGutsException(k: Kind, message: Value, kwargs: Dict, fatal: bool) returns (r: Result<Raised>)
    requires IsGuts(k)
    ensures var filled := FilledKwargs(k, message, kwargs);
            var args := map key | key in filled :: Textual(filled[key]);
            r == Finish(k, Template(k), message, args, Format(Template(k), args), fatal)
  {
    var args := TextualKwargs(FilledKwargs(k, message, kwargs));
    r := Finish(k, Template(k), message, args, Format(Template(k), args), fatal);
  }

  /** The loop of the constructor that turns every exception value in the kwargs into its text. */
  method TextualKwargs(filled: Dict) returns (args: Dict)
    ensures args == map key | key in filled :: Textual(filled[key])
  {
    args := filled;
    var pending := filled.Keys;
    while pending != {}
      invariant pending <= filled.Keys && args.Keys == filled.Keys
      invariant forall key :: key in filled && key !in pending ==> args[key] == Textual(filled[key])
      invariant forall key :: key in pending ==> args[key] == filled[key]
      decreases |pending|
    {
      var key :| key in pending;
      if args[key].VExc? {
        args := args[key := VStr(args[key].text)];
      }
      pending := pending - {key};
    }
  }

  /** The exception's `kwargs`: the message, the code, and no exception values left. */
  lemma ConstructedKwargs(k: Kind, message: Value, kwargs: Dict)
    requires IsGuts(k)
    ensures var filled := FilledKwargs(k, message, kwargs);
            var args := map key | key in filled :: Textual(filled[key]);
            && args.Keys == kwargs.Keys + {"message", "code"}
            && args["message"] == Textual(message)
            && args["code"] == (if "code" in kwargs then Textual(kwargs["code"]) else VInt(Code(k)))
            && (forall key :: key in args ==> !args[key].VExc?)
  {
  }

  /** A class message without placeholders is the exception's text when no message is given. */
  lemma DefaultMessage(k: Kind, template: string, args: Dict, fatal: bool)
    requires '%' !in template
    requires "message" in args && args["message"] == VNone
    ensures Finish(k, template, VNone, args, Format(template, args), fatal) == Ok(Raised(k, args, VStr(template)))
  {
    FormatPlain(template, args);
  }

  // ---------------------------------------------------------------------
  // ConvertedException.__init__
  // ---------------------------------------------------------------------

  /**
   * The status-line title: the given title, else the standard reason for the
   * code, else the generic reason of its class (`code // 100`); a KeyError
   * when neither table knows the code.
   */
  function ConvertedTitle(code: int, title: string, reasons: map<int, string>, genericReasons: map<int, string>): (r: Result<string>)
    ensures title != "" ==> r == Ok(title)
    ensures title == "" && code in reasons ==> r == Ok(reasons[code])
    ensures title == "" && code !in reasons ==>
              (if code / 100 in genericReasons then r == Ok(genericReasons[code / 100]) else r.Err? && r.error.kind == KeyError)
  {
    if title != "" then Ok(title)
    else if code in reasons then Ok(reasons[code])
    else if code / 100 in genericReasons then Ok(genericReasons[code / 100])
    else Err(Exc(KeyError, Strings.IntToString(code / 100)))
  }
}
