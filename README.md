# guts: a verified model of the migration orchestrator

guts moves virtual machines, volumes and networks from a source cloud (VMware
vSphere or OpenStack) to a destination OpenStack cloud. Its REST API
registers hypervisors, which are source or destination endpoints with a driver, credentials,
allowed migration hosts and capabilities. It also records resources discovered on a
source and migrations requested by users. The scheduler picks a migration host
for a hypervisor. The migration service's source manager then fetches and converts a VM or volume, and the
destination manager creates it at the destination.

This project models the core of that system in Dafny and proves properties of
the model. There is one module per source file, or per group of source files:

| module | file | models |
|---|---|---|
| `Wrappers`, `PyValues`, `Strings` | wrappers.dfy, py_values.dfy, strings.dfy | shared values: Python values and dicts, truthiness, rendering, splitting, joining, integer text |
| `Exceptions` | exceptions.dfy | guts/exception.py: the exception hierarchy, codes, message formatting, `except` matching |
| `Utils` | utils.dfy | guts/utils.py |
| `Db` | db.dfy | guts/db/sqlalchemy/api.py and the columns of models.py: a `Database` class with the four tables, every query and update, the context checks, the read_deleted visibility rules |
| `Objects` | objects.dfy | guts/objects/{base,resources,hypervisors,migrations}.py: versioned records with change tracking, create, save, destroy, list loaders |
| `HostManagement`, `SchedulerDriver`, `SchedulerService` | host_manager.dfy, scheduler_driver.dfy, scheduler_manager.dfy | guts/scheduler: host states, the host map refresh, host selection, the scheduler manager |
| `MigrationVm`, `MigrationCommon` | vm.dfy, migration_common.dfy | guts/migration/common: the VM record, its disks, the base migration |
| `VsphereClient`, `VsphereMigration` | vsphere_client.dfy, vsphere_migration.dfy | guts/migration/drivers/vsphere: the client's calls and the fetch, convert, push and boot pipeline |
| `MigrationDrivers`, `SourceListing` | drivers_base.dfy, listing.dfy | guts/migration/drivers/driver.py and the exclude filtering that the source listings share |
| `VsphereSource`, `OpenStackSource`, `OpenStackResources`, `OpenStackDriver`, `OpenStackDestination` | sources_vsphere.dfy, sources_openstack.dfy, openstack_resources.dfy, drivers_openstack.dfy, destinations_openstack.dfy | the vSphere and OpenStack source drivers, the combined OpenStack driver, the OpenStack destination driver |
| `MigrationService`, `HypervisorRegistration`, `SourceService`, `DestinationService` | manager_common.dfy, manager_hypervisors.dfy, manager_source.dfy, manager_destination.dfy | guts/migration/manager.py: hypervisor registration, the source and destination handlers, casts, free space, lock names |
| `HypervisorViews`, `VmViews`, `ServicesApi`, `HypervisorsApi` | api_views_hypervisors.dfy, api_views_vms.dfy, api_services.dfy, api_hypervisors.dfy | guts/api/views and guts/api/v1/{sources,destinations,hypervisors}.py |

guts/api/v1/sources.py and guts/api/v1/destinations.py are the same
controller over a different hypervisor type. `ServicesApi` models both with
one `Side` parameter; the table below cites sources.py.

Terms used below:
- A row is *visible* when the request context's read_deleted mode lets it through ("no", "yes" or "only").
- A row is *live* when it is not soft-deleted.
- A *trace* is the sequence of remote calls a driver makes, in order.

Everything the code reaches outside itself is a parameter of the model: the
clock, fresh UUIDs, configuration, remote clients (Nova, Glance, Cinder,
Neutron, Keystone, vSphere), shell commands, imports of drivers by name, and
the migration hosts the RPC layer knows. A parameter is either the value the call returns or
the exception it raises. State the source updates in place is a Dafny
`class`, such as `Db.Database`, `Objects.VersionedObject`, `HostManagement.HostManager`,
the driver classes and the managers. Its methods carry `modifies` clauses and
tie the new state to specification functions, and lemmas prove the
properties of those functions.

Where the code and its documented intent disagree, the model follows the code. The disagreement is
listed under "## Findings", with a corrected member beside the as-written
one.

## Model

| member | source | states |
|---|---|---|
| Exceptions.Parent | guts/exception.py:133-265 | each class derives from a class nearer to GutsException, and only GutsException, NotAuthorized, NotFound, SourceTypeNotFound, SourceNotFound, Duplicate or Invalid are derived from |
| Exceptions.BasesAreGuts | guts/exception.py:133-265 | every base class named in the hierarchy is GutsException or one of its subclasses |
| Exceptions.LeafCaughtOnlyBySelf | guts/exception.py:133-265 | an `except` of a class that no class derives from catches exactly that class |
| Exceptions.AncestorIsGuts | guts/exception.py:74-83 | a class deriving from a GutsException class is itself one |
| Exceptions.CodeByFamily | guts/exception.py:83-191 | every subclass of NotFound answers 404, of NotAuthorized 403, of Invalid 400, and every other class 500, since no subclass overrides `code` |
| Exceptions.FormatPlain | guts/exception.py:100-103 | a template without `%` formats to itself |
| Exceptions.FormatPlaceholder | guts/exception.py:100-103 | a `%(key)s` placeholder is replaced by the rendered argument and the rest of the template is formatted on |
| Exceptions.NewGutsException | guts/exception.py:87-124 | the constructor's result is the finish of the class template formatted against the kwargs, with `message` and `code` filled in and exception values turned into their text |
| Exceptions.TextualKwargs | guts/exception.py:97-99 | the kwargs loop turns exactly the exception values into their text and keeps every key |
| Exceptions.ConstructedKwargs | guts/exception.py:87-99 | the kwargs hold the given keys plus `message` and `code`, the given code when there is one and the class code otherwise, and no exception value |
| Exceptions.DefaultMessage | guts/exception.py:100-116 | with no message given, a template without placeholders is the exception's text |
| Exceptions.ConvertedTitle | guts/exception.py:48-66 | the title is the given one, else the reason for the code, else the generic reason of `code // 100`, and a KeyError when neither table has the code |
| Utils.RootHelper | guts/utils.py:24-25 | the root helper is `sudo guts-rootwrap ` followed by exactly the configured rootwrap file |
| Utils.Execute | guts/utils.py:24-32 | the command passes unchanged, every given keyword argument is kept, and a `run_as_root` call without a `root_helper` gets the configured root helper |
| Db.IsAdminContext | guts/db/sqlalchemy/api.py:86-92 | a missing context raises; otherwise the answer is the context's admin flag |
| Db.AuthorizeProjectContext | guts/db/sqlalchemy/api.py:106-112 | NotAuthorized exactly when a user context names another project |
| Db.AuthorizeUserContext | guts/db/sqlalchemy/api.py:115-121 | NotAuthorized exactly when a user context names another user |
| Db.RequireAdminContext | guts/db/sqlalchemy/api.py:124-135 | passes exactly for an admin context; a missing context raises, a non-admin one is AdminRequired |
| Db.RequireContext | guts/db/sqlalchemy/api.py:138-153 | passes exactly for an admin or a user context; a missing context raises, any other is NotAuthorized |
| Db.ReadDeletedMode | guts/db/sqlalchemy/api.py:183-197 | "no", "yes" and "only" select live, all and deleted rows; any other mode raises |
| Db.Query | guts/db/sqlalchemy/api.py:174-202 | `all()` lists exactly the selected rows of the table |
| Db.FirstIndex | guts/db/sqlalchemy/api.py:174-202 | `first()` finds a selected row with no selected row before it, or nothing when no row is selected |
| Db.FirstIsHeadOfAll | guts/db/sqlalchemy/api.py:174-202 | `first()` is nothing exactly when `all()` is empty, and otherwise the head of `all()` |
| Db.FirstIndexAgrees | guts/db/sqlalchemy/api.py:174-202 | the first selected row is the one at `k` when it is selected and no earlier row is |
| Db.Columns | guts/db/sqlalchemy/models.py:32-103 | every table has the id and the timestamp and soft-delete columns |
| Db.Stored | guts/db/sqlalchemy/models.py:32-103 | a flush stores exactly the column attributes of an object, unchanged |
| Db.AppendKeepsTabular | guts/db/sqlalchemy/models.py:52-52 | appending a row of columns whose id is free keeps ids unique |
| Db.ReplaceKeepsTabular | guts/db/sqlalchemy/models.py:52-52 | replacing a row by one whose id no other row holds keeps ids unique |
| Db.WithId | guts/db/sqlalchemy/api.py:262-263 | a falsy or missing id is replaced by the fresh uuid; every other value is kept |
| Db.Defaults | guts/db/sqlalchemy/models.py:32-103 | an insert fills `created_at` with the clock and `deleted` with False, and only columns |
| Db.Refreshed | guts/db/sqlalchemy/api.py:231-236 | an update assigns every value, keeps every other attribute, and stamps `updated_at` only when a column changed and neither the values nor the caller set it |
| Db.SoftDeleteValues | guts/db/sqlalchemy/api.py:279-288 | a soft delete sets `deleted` and `deleted_at` only |
| Db.SoftDeleteKeepsRow | guts/db/sqlalchemy/api.py:279-288 | a soft delete keeps the id and the stored columns |
| Db.Visible | guts/db/sqlalchemy/api.py:174-202 | the guard's error first; a read-deleted error next; a filter on a non-column is InvalidRequestError; otherwise the visibility of the mode |
| Db.Locate | guts/db/sqlalchemy/api.py:239-249 | a lookup finds the first visible matching row, and raises its not-found error exactly when no visible row matches |
| Db.Lookup | guts/db/sqlalchemy/api.py:239-249 | the lookup promise: the guard's error, the first matching row, or not-found exactly when nothing matches |
| Db.Select | guts/db/sqlalchemy/api.py:221-227 | the listing promise: the guard's error or exactly the visible rows matching every filter |
| Db.UnscoredConcat | guts/db/sqlalchemy/api.py:699-714 | removing underscores distributes over concatenation |
| Db.PassOneInsertsUnderscores | guts/db/sqlalchemy/api.py:699-714 | the first substitution of `_get_get_method` only inserts underscores |
| Db.PassTwoInsertsUnderscores | guts/db/sqlalchemy/api.py:699-714 | the second substitution only inserts underscores |
| Db.GetMethodNameShape | guts/db/sqlalchemy/api.py:699-714 | the getter name is the class name with underscores inserted, lower-cased, plus `_get` |
| Db.CamelPassesKeep | guts/db/sqlalchemy/api.py:699-714 | a name with no inner capital passes both substitutions unchanged |
| Db.SimpleGetterName | guts/db/sqlalchemy/api.py:699-714 | the getter of a class name with no inner capital is its lower-cased name plus `_get` |
| Db.UnknownGetter | guts/db/sqlalchemy/api.py:699-714 | lower-cased names of these lengths are the name of no getter function |
| Db.HypervisorsGetterMissing | guts/db/sqlalchemy/api.py:699-714 | the ORM class Hypervisors resolves to no function of the module |
| Db.ResourcesGetterMissing | guts/db/sqlalchemy/api.py:699-714 | the ORM class Resources resolves to no function of the module |
| Db.MigrationsGetterMissing | guts/db/sqlalchemy/api.py:699-714 | the ORM class Migrations resolves to no function of the module |
| Db.ServiceGetterFound | guts/db/sqlalchemy/api.py:699-714 | the ORM class Service resolves to `service_get` |
| Db.CorrectedGettersFound | guts/db/sqlalchemy/api.py:699-714 | with the exceptions table filled in, every ORM class of the module reaches its getter |
| Db.Database.constructor | guts/db/sqlalchemy/models.py:49-103 | the four tables start empty and well formed |
| Db.Database.Commit | guts/db/sqlalchemy/api.py:174-202 | a flush: the named table holds the new rows, no other table changes, the write is recorded, and the tables stay well formed |
| Db.Database.TabularOf | guts/db/sqlalchemy/models.py:52-52 | every table of a valid database has unique ids and only columns |
| Db.Database.Insert | guts/db/sqlalchemy/api.py:259-274 | a duplicate id is DBDuplicateEntry and changes nothing; otherwise the stored form is appended and logged |
| Db.Database.UpdateAt | guts/db/sqlalchemy/api.py:230-236 | the lookup's error, a DBDuplicateEntry for an id another row has, or the row replaced by its refreshed stored form |
| Db.Database.FindById | guts/db/sqlalchemy/api.py:239-249 | the row found has the id; the guard's error first; not-found only when no visible row has the id |
| Db.Database.UpdateById | guts/db/sqlalchemy/api.py:230-236 | admin only, then the lookup, then the update |
| Db.Database.DeleteById | guts/db/sqlalchemy/api.py:277-288 | admin only, then the lookup, then the soft delete |
| Db.Database.HypervisorGetAll | guts/db/sqlalchemy/api.py:221-227 | any context; the live rows, or every row when `inactive` |
| Db.Database.HypervisorGet | guts/db/sqlalchemy/api.py:239-256 | the first visible hypervisor with the id, or ResourceNotFound |
| Db.Database.HypervisorGetAllByType | guts/db/sqlalchemy/api.py:291-296 | exactly the visible hypervisors of the type |
| Db.Database.HypervisorGetByRegisteredHost | guts/db/sqlalchemy/api.py:299-309 | the first visible hypervisor registered by the host, or ResourceNotFound |
| Db.Database.HypervisorGetByName | guts/db/sqlalchemy/api.py:312-322 | the first visible hypervisor of the name, or ResourceNotFound |
| Db.Database.HypervisorCreate | guts/db/sqlalchemy/api.py:259-274 | any context; the values with defaults and a fresh id are inserted |
| Db.Database.HypervisorUpdate | guts/db/sqlalchemy/api.py:230-236 | admin only; the hypervisor with the id updated |
| Db.Database.HypervisorDelete | guts/db/sqlalchemy/api.py:277-288 | admin only; the hypervisor soft-deleted, `updated_at` kept |
| Db.Database.ResourceGetAll | guts/db/sqlalchemy/api.py:341-347 | any context; live rows, or all rows when `inactive` |
| Db.Database.ResourceGet | guts/db/sqlalchemy/api.py:350-367 | the first visible resource with the id, or ResourceNotFound |
| Db.Database.ResourceGetAllByType | guts/db/sqlalchemy/api.py:402-407 | exactly the visible resources of the type |
| Db.Database.ResourceGetByIdAtSource | guts/db/sqlalchemy/api.py:410-420 | the first visible resource with the source id, or ResourceNotFound |
| Db.Database.ResourcesGetBySource | guts/db/sqlalchemy/api.py:423-428 | as written: the listing filtered on `source` |
| Db.Database.ResourcesBySourceRaises | guts/db/sqlalchemy/api.py:423-428 | the listing by `source` never succeeds: InvalidRequestError once the context passes |
| Db.Database.ResourcesGetBySourceHypervisor | guts/db/sqlalchemy/api.py:423-428 | the listing on `source_hypervisor` lists exactly the visible resources of the source |
| Db.Database.ResourceCreate | guts/db/sqlalchemy/api.py:370-385 | any context; the values with defaults and a fresh id are inserted |
| Db.Database.ResourceUpdate | guts/db/sqlalchemy/api.py:444-450 | admin only; the resource with the id updated |
| Db.Database.ResourceDelete | guts/db/sqlalchemy/api.py:388-399 | admin only; the resource soft-deleted, `updated_at` kept |
| Db.Database.ResourceDeleteAllBySourceAsWritten | guts/db/sqlalchemy/api.py:431-441 | as written, the delete never succeeds: a non-admin context gets the guard's error, and an admin one the InvalidRequestError of the listing on `source` |
| Db.Database.ResourceDeleteAllBySource | guts/db/sqlalchemy/api.py:431-441 | as intended (listing on `source_hypervisor`): admin only; every visible resource of the source soft-deleted in table order, nothing else changed |
| Db.Database.SoftDeleteSelected | guts/db/sqlalchemy/api.py:435-441 | the loop soft-deletes exactly the selected rows and logs one write per row listed |
| Db.Database.MigrationGetAll | guts/db/sqlalchemy/api.py:469-474 | any context; live rows, or all rows when `inactive` |
| Db.Database.MigrationGet | guts/db/sqlalchemy/api.py:477-492 | the first visible migration with the id, or MigrationNotFound |
| Db.Database.MigrationGetByName | guts/db/sqlalchemy/api.py:495-508 | the first visible migration of the name, or MigrationNotFoundByName |
| Db.Database.MigrationCreate | guts/db/sqlalchemy/api.py:525-548 | admin only; MigrationExists when a migration with the id is visible; otherwise inserted |
| Db.Database.MigrationUpdate | guts/db/sqlalchemy/api.py:551-557 | admin only; the migration with the id updated |
| Db.Database.MigrationDelete | guts/db/sqlalchemy/api.py:511-522 | admin only; the migration soft-deleted, `updated_at` kept |
| Db.Database.ServiceGet | guts/db/sqlalchemy/api.py:570-586 | admin only; the first visible service with the id, or ServiceNotFound |
| Db.Database.ServiceGetAll | guts/db/sqlalchemy/api.py:589-596 | admin only; the visible services, filtered on `disabled` when it is given |
| Db.Database.ServiceGetAllByTopic | guts/db/sqlalchemy/api.py:599-608 | admin only; never a soft-deleted service, only services of the topic |
| Db.Database.ServiceGetByHostAndTopic | guts/db/sqlalchemy/api.py:611-621 | admin only; a live enabled service of the host and topic, or ServiceNotFound |
| Db.Database.ServiceGetByArgs | guts/db/sqlalchemy/api.py:624-636 | admin only; the first service of the host running the binary, or ServiceNotFound |
| Db.Database.ServiceCreate | guts/db/sqlalchemy/api.py:639-658 | admin only; disabled unless new services are enabled; ServiceExists for a visible id; otherwise inserted |
| Db.Database.ServiceUpdate | guts/db/sqlalchemy/api.py:661-671 | admin only; changing `disabled` stamps `modified_at` and keeps `updated_at` |
| Db.Database.ServiceDestroy | guts/db/sqlalchemy/api.py:562-567 | admin only; a soft delete that stamps `updated_at` |
| Db.Database.GetById | guts/db/sqlalchemy/api.py:679-685 | as written: the context guard, then the getter the class name resolves to, or a TypeError when there is none |
| Db.Database.GetByIdCorrected | guts/db/sqlalchemy/api.py:679-685 | every ORM class reaches its own getter |
| Db.Database.GetByIdOfModels | guts/db/sqlalchemy/api.py:679-714 | as written, only Service reaches a getter: the other three classes are TypeErrors |
| Db.QueryAppend | guts/db/sqlalchemy/api.py:174-202 | a row appended to the table is appended to the listing exactly when it is selected |
| Db.MarkDeletedAt | guts/db/sqlalchemy/api.py:435-441 | each row is soft-deleted exactly when it is selected |
| Db.MarkDeletedTabular | guts/db/sqlalchemy/api.py:435-441 | soft-deleting rows keeps their ids and columns |
| Db.DeleteLogOfQuery | guts/db/sqlalchemy/api.py:435-441 | the writes are one per row the listing returns, in the listing's order |
| Db.SoftDeletes | guts/db/sqlalchemy/api.py:435-441 | one soft-delete write per row, in order |
| Objects.FieldTypes | guts/objects/base.py:98-103 | an object's fields are the persistent fields plus its class's own, with the class's field types |
| Objects.Coerce | guts/objects/resources.py:58-61 | a loaded integer field defaults to 0, a datetime field to None, and strings and booleans are kept |
| Objects.Loaded | guts/objects/hypervisors.py:59-70 | a loaded object has exactly its class's fields |
| Objects.LoadFields | guts/objects/resources.py:55-66 | each field is the coerced value of the row's attribute of that name, None when the row lacks it |
| Objects.LoadedFields | guts/objects/resources.py:55-66 | every non-datetime field is the row's value (None when missing), and every datetime field is the row's value when it is truthy and None otherwise |
| Objects.ReloadIsIdentity | guts/objects/resources.py:55-66 | loading an object from what was loaded gives it back |
| Objects.Naive | guts/objects/base.py:58-62 | a datetime with a UTC offset becomes the naive time shifted by the offset; any other value is kept |
| Objects.NaiveKeepsInstant | guts/objects/base.py:58-62 | the conversion keeps the instant, leaves no offset, and is idempotent |
| Objects.NaiveAll | guts/objects/base.py:45-65 | every changed field is converted and no key is added or dropped |
| Objects.NaiveChanges | guts/objects/base.py:55-65 | the loop over the changes turns every changed value into its naive form |
| Objects.VersionedObject.constructor | guts/objects/hypervisors.py:33-52 | a new object has no attribute set and no change |
| Objects.VersionedObject.Attr | guts/objects/base.py:78-90 | reading an unset attribute is NotImplementedError, a set one gives its value |
| Objects.VersionedObject.DictGet | guts/objects/base.py:78-90 | `get` of a non-field is None; of a set field its value; of an unset field the default, or NotImplementedError without one |
| Objects.VersionedObject.SetField | guts/objects/resources.py:62-62 | setting a field assigns it and marks it changed |
| Objects.VersionedObject.ObjGetChanges | guts/objects/base.py:55-55 | the changes are exactly the changed fields with their current values |
| Objects.VersionedObject.GutsObjGetChanges | guts/objects/base.py:45-65 | the updates are the changed fields with naive datetimes |
| Objects.VersionedObject.FromDbObject | guts/objects/resources.py:55-66 | the object holds the loaded row, the context, and no change |
| Objects.VersionedObject.AssignFields | guts/objects/resources.py:56-62 | the loop assigns every field from the row and marks each changed |
| Objects.AlreadyCreated | guts/exception.py:264-265 | the ObjectActionError of `create` carries the inherited text "An unknown exception occurred.", because the class sets `msg_fmt`, which the base class never formats |
| Objects.VersionedObject.Create | guts/objects/resources.py:78-85 | an object with an id is the ObjectActionError of AlreadyCreated and nothing changes; otherwise the naive changes are created in the table and the object reloaded from the new row, holding the fresh id |
| Objects.VersionedObject.Save | guts/objects/resources.py:87-92 | no change saves nothing; changes are updated on the row of the object's id and cleared only on success |
| Objects.VersionedObject.ClearChangesOn | guts/objects/resources.py:92-92 | changes are reset exactly when the update succeeded |
| Objects.VersionedObject.Destroy | guts/objects/resources.py:94-97 | an orphaned object is OrphanedObjectError; otherwise the row of the id is soft-deleted under an elevated context; the object is unchanged |
| Objects.VersionedObject.EqualIff | guts/objects/base.py:128-132 | two objects are equal exactly when class, attributes and changes agree, and never equal to a plain value |
| Objects.DbCreate | guts/objects/resources.py:84-84 | the create call of the table of the object's class, returning the values with defaults and the fresh id |
| Objects.DbUpdate | guts/objects/resources.py:91-91 | the update call of the table of the object's class |
| Objects.DbDelete | guts/objects/resources.py:97-97 | the delete call of the table of the object's class |
| Objects.LoadedId | guts/objects/resources.py:40-40 | every class has an `id` field, loaded from the row |
| Objects.Elevated | guts/objects/base.py:120-121 | the elevated context is an admin context that keeps the user, the project and the read-deleted mode |
| Objects.ElevatedIsAdmin | guts/objects/base.py:120-121 | an elevated context passes the admin guard |
| Objects.Load | guts/objects/resources.py:74-76 | a lookup error propagates; otherwise a fresh object holds the loaded row and no change |
| Objects.ResourceGet | guts/objects/resources.py:73-76 | the resource of the id, loaded, or the lookup's error |
| Objects.ResourceGetByIdAtSource | guts/objects/resources.py:68-71 | the resource of the source id, loaded, or the lookup's error |
| Objects.HypervisorGetByName | guts/objects/hypervisors.py:72-75 | the hypervisor of the name, loaded, or the lookup's error |
| Objects.MigrationGet | guts/objects/migrations.py:68-71 | the migration of the id, loaded, or the lookup's error |
| Objects.LoadedAll | guts/objects/resources.py:114-115 | one loaded object per row, in order |
| Objects.LoadList | guts/objects/resources.py:111-115 | a listing error propagates; otherwise one loaded object per row, in order |
| Objects.ResourceListGetAll | guts/objects/resources.py:111-115 | the filters are passed as `inactive`: any non-empty filters list every row |
| Objects.MigrationListGetAll | guts/objects/migrations.py:106-110 | the filters are passed as `inactive`: any non-empty filters list every row |
| Objects.FiltersListDeleted | guts/objects/resources.py:111-115 | with non-empty filters every row is listed, deleted ones too, whatever the filters say |
| Objects.QueryEverything | guts/db/sqlalchemy/api.py:191-192 | a query without filters over every row lists the table as it is |
| Objects.ResourceListGetAllByType | guts/objects/resources.py:117-121 | the resources of the type, loaded |
| Objects.ResourceListGetAllBySource | guts/objects/resources.py:123-127 | the backend has no `resource_get_all_by_source`: AttributeError |
| Objects.HypervisorListGetAllByHost | guts/objects/hypervisors.py:119-123 | the backend has no `hypervisor_get_all_by_host`: AttributeError |
| Objects.ResourceListDeleteAllBySource | guts/objects/resources.py:129-131 | as intended, over the corrected backend delete: every visible resource of the source soft-deleted, admin only |
| Objects.HypervisorListGetAll | guts/objects/hypervisors.py:110-117 | no filters is an AttributeError; otherwise the filters lose `all_tenants`, a context that is neither admin nor user gets the NotAuthorized of `require_context`, and any other context reaches the seven-argument call, a TypeError |
| HostManagement.HostState.constructor | guts/scheduler/host_manager.py:81-90 | a new host state holds read-only copies of the capabilities and the service (empty when None), no migration host name, zero capacity and no update time |
| HostManagement.HostState.UpdateCapabilities | guts/scheduler/host_manager.py:92-100 | the capabilities and service are replaced by read-only copies, empty when None; nothing else changes |
| HostManagement.HostState.UpdateFromMigrationCapability | guts/scheduler/host_manager.py:102-112 | the capabilities are overwritten before the timestamp check, so an older report still overwrites; the check is a KeyError exactly when a non-empty report lacks `timestamp` and an update time is set |
| HostManagement.Requested | guts/scheduler/host_manager.py:152-155 | None means the configured defaults and a scalar name becomes a one-element list |
| HostManagement.UnknownMembers | guts/scheduler/host_manager.py:156-169 | the bad names are exactly the requested names that are no known class, and there are none exactly when every name is known |
| HostManagement.MatchedAllKnown | guts/scheduler/host_manager.py:156-170 | with every name known, the good classes are the names in request order |
| HostManagement.ChoiceMeaning | guts/scheduler/host_manager.py:145-198 | the choice succeeds exactly when every name is known, returning the names in order; otherwise it raises the not-found error, and the bad names are exactly the unknown ones |
| HostManagement.FindClass | guts/scheduler/host_manager.py:159-164 | the inner loop finds the name exactly when a class has it |
| HostManagement.ChooseClasses | guts/scheduler/host_manager.py:145-198 | the loops over the requested names compute the choice |
| HostManagement.HostsOfServices | guts/scheduler/host_manager.py:248-267 | the active hosts are the up services' hosts that reported, the silent hosts the up services' hosts that did not, and no host is both; a down service is neither |
| HostManagement.HostManager.constructor | guts/scheduler/host_manager.py:131-143 | the registries start empty, and the first reconciliation leaves every up service's host silent |
| HostManagement.HostManager.ChooseHostFilters | guts/scheduler/host_manager.py:145-170 | the filter choice over the filter classes, failing with SchedulerHostFilterNotFound |
| HostManagement.HostManager.ChooseHostWeighers | guts/scheduler/host_manager.py:172-198 | the weigher choice over the weigher classes, failing with SchedulerHostWeigherNotFound |
| HostManagement.HostManager.UpdateServiceCapabilities | guts/scheduler/host_manager.py:216-234 | a report of any service but 'migration' changes nothing; otherwise only the host's entry is replaced by the stamped copy and the host is no longer silent |
| HostManagement.HostManager.HasAllCapabilities | guts/scheduler/host_manager.py:236-237 | true exactly when no host is silent |
| HostManagement.HostManager.UpdateHostStateMap | guts/scheduler/host_manager.py:239-276 | the silent set is replaced by the up hosts without a report, the map's keys become exactly the up hosts with one, existing states are reused and each holds its host's report and, as its read-only service copy, the record of its host's last up service |
| HostManagement.RefreshStates | guts/scheduler/host_manager.py:248-267 | the service loop visits every active host, reuses the states it finds and creates the others, and collects the active and silent hosts |
| HostManagement.Visit | guts/scheduler/host_manager.py:258-266 | one up host with a report: its state, reused or new, holds the report and a read-only copy of the service record; no other state's capabilities or service change |
| HostManagement.HostsStep | guts/scheduler/host_manager.py:248-267 | one more service adds its host to the active or the silent set exactly when it is up |
| HostManagement.Evict | guts/scheduler/host_manager.py:272-276 | exactly the states of active hosts are kept, unchanged |
| HostManagement.AllReportedAfterReconciliation | guts/scheduler/host_manager.py:236-269 | after reconciliation all capabilities are in exactly when every up service's host has reported |
| SchedulerDriver.RpcApi.constructor | guts/scheduler/driver.py:48-49 | an RPC API object for its service |
| SchedulerDriver.Scheduler.constructor | guts/scheduler/driver.py:45-49 | the scheduler holds the host manager and fresh source and destination RPC APIs |
| SchedulerDriver.Scheduler.Reset | guts/scheduler/driver.py:51-54 | both RPC API objects are replaced by fresh ones and nothing else changes |
| SchedulerDriver.Scheduler.IsReady | guts/scheduler/driver.py:56-62 | ready exactly when the host manager has every host's capabilities |
| SchedulerDriver.Scheduler.UpdateServiceCapabilities | guts/scheduler/driver.py:64-68 | the report reaches the host manager unchanged |
| SchedulerDriver.Scheduler.HostPassesFilters | guts/scheduler/driver.py:70-72 | always NotImplementedError |
| SchedulerDriver.Scheduler.Schedule | guts/scheduler/driver.py:74-76 | always NotImplementedError |
| SchedulerDriver.Scheduler.ScheduleCreateMigration | guts/scheduler/driver.py:78-80 | always NotImplementedError |
| SchedulerDriver.MaxAttempts | guts/scheduler/filter_scheduler.py:45-51 | the configured value when it is at least 1, InvalidParameterValue otherwise |
| SchedulerDriver.FilterScheduler.constructor | guts/scheduler/filter_scheduler.py:36-39 | the scheduler stores the validated attempts |
| SchedulerDriver.FilterScheduler.Schedule | guts/scheduler/filter_scheduler.py:41-43 | selects no host |
| SchedulerDriver.NewFilterScheduler | guts/scheduler/filter_scheduler.py:36-39 | construction succeeds exactly when the configured attempts are at least 1, storing them; otherwise it fails with the validation error |
| SchedulerService.SchedulerManager.constructor | guts/scheduler/manager.py:49-55 | the startup delay is set and nothing was requested |
| SchedulerService.SchedulerManager.InitHostWithRpc | guts/scheduler/manager.py:57-62 | capabilities are requested once, then the startup delay ends |
| SchedulerService.SchedulerManager.Reset | guts/scheduler/manager.py:64-66 | the driver is reset too |
| SchedulerService.SchedulerManager.UpdateServiceCapabilities | guts/scheduler/manager.py:71-78 | None capabilities become an empty dict; the service name and host are forwarded unchanged |
| MigrationVm.BasePathUnderMigrationDir | guts/migration/common/vm.py:10-28 | a VM's working directory is `/tmp/guts/<uuid>` whenever the uuid is not an absolute path |
| MigrationVm.FileSystem.constructor | guts/migration/common/vm.py:28-30 | the file system starts with the given paths and no command run |
| MigrationVm.ImageMeta | guts/migration/common/vm.py:42-47 | the image metadata has exactly the VM's name, disk format qcow2 and container format bare |
| MigrationVm.DiskPath | guts/migration/common/vm.py:49-53 | there is no target disk exactly when the name is None or empty; otherwise it is `<name>.qcow2` inside the base path |
| MigrationVm.MigrationVM.constructor | guts/migration/common/vm.py:22-32 | a new VM has its uuid, its base path under the migration directory, no name, hypervisor types or disks, and its base path now exists; no command is run |
| MigrationVm.MigrationVM.SetName | guts/migration/common/vm.py:34-40 | the name setter changes the name and nothing else |
| MigrationVm.MigrationVM.PrepareImageMeta | guts/migration/common/vm.py:42-47 | the image metadata of the VM has exactly its current name, disk format qcow2 and container format bare |
| MigrationVm.MigrationVM.TargetDiskPath | guts/migration/common/vm.py:49-53 | the VM has no target disk exactly when its name is None or empty; otherwise the target is `<name>.qcow2` inside its base path |
| MigrationVm.MigrationVM.SourceDiskPath | guts/migration/common/vm.py:55-59 | no source disk exactly when the VM has no disks; otherwise the first disk inside the base path |
| MigrationVm.MigrationVM.Convert | guts/migration/common/vm.py:61-70 | without a target path the existence check is a TypeError; an existing target is skipped with no command; otherwise exactly one `qemu-img convert` from the source disk to the target runs (a TypeError when there is no source disk), and the target exists afterwards when the conversion succeeds |
| MigrationVm.CreateMigrationVmInstance | guts/migration/common/vm.py:13-14 | a fresh VM for the uuid whose base path exists |
| MigrationVm.ConvertTwice | guts/migration/common/vm.py:61-70 | converting twice runs `qemu-img` at most once, and once the first call passes so does the second |
| MigrationCommon.Validate | guts/migration/common/migration.py:10-30 | the parameters pass exactly when a given event is one of the seven migration events and a given status one of the three statuses; an invalid event is reported first, and every rejection is a plain Exception |
| MigrationCommon.ServerInfo | guts/migration/common/migration.py:41-46 | the server request has exactly the name, the image, the flavor and one NIC on the given network |
| MigrationCommon.BaseMigration.constructor | guts/migration/common/migration.py:19-22 | every argument is ignored: context, migration and VM all start as None |
| MigrationCommon.BaseMigration.UpdateMigration | guts/migration/common/migration.py:24-31 | invalid parameters are rejected before anything is written; without a migration record the `.id` access is an AttributeError; otherwise exactly one update of that migration is sent, and the outcome is the update's |
| MigrationCommon.BaseMigration.PushToGlance | guts/migration/common/migration.py:33-37 | the migration is marked PUSHING_TO_GLANCE first; only when that succeeds is the image created from the VM's metadata and target disk, and the image id is returned exactly when that upload succeeds |
| MigrationCommon.BaseMigration.BootImage | guts/migration/common/migration.py:39-47 | the migration is marked BOOTING_IMAGES first; only when that succeeds is one server booted with the VM's name, the image, the flavor and the network |
| VsphereClient.Find | guts/migration/drivers/vsphere/client.py:143-144 | the search by uuid finds nothing exactly when no VM has that uuid, and otherwise the first VM that has it |
| VsphereClient.ExportsAtMostTwice | guts/migration/drivers/vsphere/client.py:146-155 | the lease request exports the VM once, or twice exactly when the first lease is not ready, and a single export's lease is the one used |
| VsphereClient.FetchAppendsInOrder | guts/migration/drivers/vsphere/client.py:108-124 | the disk loop records the device target ids in order, a prefix of all of them, all of them exactly when it completes, and it removes no file |
| VsphereClient.FetchSkipsExisting | guts/migration/drivers/vsphere/client.py:111-116 | a disk whose file already exists is never downloaded |
| VsphereClient.FetchCompleteCoversAll | guts/migration/drivers/vsphere/client.py:108-124 | after a complete loop every device's disk file exists |
| VsphereClient.FetchAllExisting | guts/migration/drivers/vsphere/client.py:108-116 | when every disk file already exists the loop downloads nothing, records every target id and completes |
| VsphereClient.FetchIdempotent | guts/migration/drivers/vsphere/client.py:108-124 | repeating a complete fetch downloads nothing and changes no file |
| VsphereClient.DiskLoop | guts/migration/drivers/vsphere/client.py:108-124 | the loop over the device URLs computes the disk fetch: appended target ids, written files, downloads and whether it completed |
| VsphereClient.VmInfo | guts/migration/drivers/vsphere/client.py:179-185 | a VM's listing entry has exactly its name, guest id, path name and instance uuid |
| VsphereClient.VSphereClient.constructor | guts/migration/drivers/vsphere/client.py:50-61 | the client holds the inventory it connected to and has sent no request |
| VsphereClient.VSphereClient.GetVmLease | guts/migration/drivers/vsphere/client.py:146-155 | the lease is the first export's when ready and the second export's otherwise, and one or two export requests are sent accordingly |
| VsphereClient.VSphereClient.FetchVm | guts/migration/drivers/vsphere/client.py:63-132 | an unknown uuid is an AttributeError with nothing changed; otherwise the VM takes the remote name and the lease is requested; a lease without device information, or in the error state, is a plain Exception with no disk recorded; a ready lease runs the disk loop, marks the lease complete only when every disk was fetched, and fails exactly when a download failed; a lease in any other state does nothing more |
| VsphereClient.VSphereClient.GetAllVms | guts/migration/drivers/vsphere/client.py:161-187 | one listing entry per VM of the inventory, in order |
| VsphereMigration.RunStepsOrder | guts/migration/drivers/vsphere/migration.py:40-49 | a run consists of ten actions in order: IN-PROGRESS/INIT, FETCHING_IMAGES then the fetch, CONVERTING_IMAGES then the conversion, PUSHING_TO_GLANCE then the upload of the named qcow2 image, BOOTING_IMAGES then the boot with flavor 3 on the default network, and COMPLETED/COMPLETED |
| VsphereMigration.UpTo | guts/migration/drivers/vsphere/migration.py:41-50 | the actions a run performs are a prefix of its steps |
| VsphereMigration.StrictlySequential | guts/migration/drivers/vsphere/migration.py:41-50 | an action runs only when every action before it succeeded |
| VsphereMigration.FirstFailure | guts/migration/drivers/vsphere/migration.py:41-51 | when some step fails there is a first failing step, and all steps before it succeed |
| VsphereMigration.UpToStopsAtFailure | guts/migration/drivers/vsphere/migration.py:41-51 | the run stops right after its first failing step, which is performed |
| VsphereMigration.StepEventsValid | guts/migration/drivers/vsphere/migration.py:56-62 | the four step events are valid migration events |
| VsphereMigration.CallStatusesValid | guts/migration/drivers/vsphere/migration.py:42-54 | the three status/event pairs the run writes pass validation |
| VsphereMigration.VSphereMigration.constructor | guts/migration/drivers/vsphere/migration.py:26-38 | the migration stores the context, the VM, the migration record and the source hypervisor, with nothing performed yet |
| VsphereMigration.VSphereMigration.FetchVm | guts/migration/drivers/vsphere/migration.py:56-58 | the FETCHING_IMAGES update, then the fetch only when it succeeded; passes exactly when both do; the VM takes the remote name exactly when the update passed and the source knows its uuid, even if the download then fails, and an unknown uuid makes the fetch fail |
| VsphereMigration.VSphereMigration.ConvertVm | guts/migration/drivers/vsphere/migration.py:60-62 | the CONVERTING_IMAGES update, then the conversion only when it succeeded; passes exactly when both do |
| VsphereMigration.VSphereMigration.RunUntilFailure | guts/migration/drivers/vsphere/migration.py:41-49 | the body of the try performs the run's steps up to the first failure and passes exactly when all succeed |
| VsphereMigration.VSphereMigration.Call | guts/migration/drivers/vsphere/migration.py:40-54 | a run whose steps all succeed passes; otherwise the record is marked FAILED/FAILED after the failing step and the outcome is that final update's |
| VsphereMigration.SuccessfulRunEvents | guts/migration/drivers/vsphere/migration.py:40-50 | a successful run performs exactly its ten steps and ends with COMPLETED/COMPLETED |
| VsphereMigration.FailedRunEndsFailed | guts/migration/drivers/vsphere/migration.py:40-54 | a failed run performs its steps up to some failing one and then exactly one FAILED/FAILED update, which is its last action |
| MigrationDrivers.MigrationDriver.constructor | guts/migration/drivers/driver.py:22-27 | a driver holds the host and configuration it was given, with empty stats and not yet initialised |
| MigrationDrivers.ExcludeList | guts/migration/drivers/driver.py:38 | splitting the `exclude` option on commas: an AttributeError without a configuration or without a string option; otherwise at least one id, none holding a comma, and the empty option gives one empty id |
| MigrationDrivers.ExcludeRoundTrip | guts/migration/drivers/driver.py:38 | joining the exclude ids with commas gives back the option |
| MigrationDrivers.ExcludedIsListed | guts/migration/drivers/driver.py:38 | an option written as comma-joined ids without commas splits back into exactly those ids |
| MigrationDrivers.SourceDriver.constructor | guts/migration/drivers/driver.py:36-38 | a source driver holds its base driver and its exclude ids |
| MigrationDrivers.SourceDriver.ListingAsWritten | guts/migration/drivers/driver.py:17-50 | as written every base listing is the NameError of the unimported `_`, never the NotImplementedError the intended listing raises |
| MigrationDrivers.SourceDriver.Listing | guts/migration/drivers/driver.py:40-50 | as intended, with `_` imported: every base listing raises NotImplementedError naming the method |
| MigrationDrivers.NewSourceDriver | guts/migration/drivers/driver.py:34-38 | construction succeeds exactly when the exclude option splits, and the new driver then holds the host, the configuration and the split ids; otherwise it fails with the split's error |
| MigrationDrivers.DestinationDriver.constructor | guts/migration/drivers/driver.py:53-56 | a destination driver holds its base driver |
| SourceListing.Kept | guts/migration/drivers/sources/openstack.py:108-110 | the kept items are exactly the listed items whose id is not excluded, never more than listed |
| SourceListing.ListingProjectsKept | guts/migration/drivers/sources/openstack.py:106-115 | a listing holds one record per kept item, in order, each the projection of its item |
| SourceListing.KeptAppend | guts/migration/drivers/sources/openstack.py:108-114 | filtering two runs of items one after the other is filtering their concatenation |
| SourceListing.KeptIdempotent | guts/migration/drivers/sources/openstack.py:108-110 | filtering twice is filtering once |
| SourceListing.KeptNoneExcluded | guts/migration/drivers/sources/openstack.py:108-110 | with no item excluded every item is kept, in order |
| SourceListing.ListLoop | guts/migration/drivers/sources/openstack.py:106-115 | the listing loop computes the listing |
| VsphereSource.InstanceRecord | guts/migration/drivers/sources/vsphere.py:85-89 | an instance record has exactly the instance uuid as id, the name, the memory and the CPU count |
| VsphereSource.VSphereSourceDriver.constructor | guts/migration/drivers/sources/vsphere.py:59-61 | the driver holds its source driver and is not connected |
| VsphereSource.VSphereSourceDriver.DoSetup | guts/migration/drivers/sources/vsphere.py:63-76 | the connection's failure is re-raised unchanged, and the driver is connected once a connection succeeded |
| VsphereSource.VSphereSourceDriver.GetInstancesList | guts/migration/drivers/sources/vsphere.py:78-92 | before a connection the missing `content` is an AttributeError; afterwards the listing of the inventory's non-excluded VMs |
| VsphereSource.VSphereSourceDriver.UnimplementedListingAsWritten | guts/migration/drivers/sources/vsphere.py:94-98 | as written, `raise NotImplemented` raises a TypeError, not NotImplementedError |
| VsphereSource.VSphereSourceDriver.UnimplementedListing | guts/migration/drivers/driver.py:44-50 | the intended volume and network listings raise the base driver's NotImplementedError |
| VsphereSource.InstancesListed | guts/migration/drivers/sources/vsphere.py:78-92 | one record per VM whose uuid is not excluded, in inventory order, and no more records than VMs |
| VsphereSource.NoExcludedRecord | guts/migration/drivers/sources/vsphere.py:82-90 | no listed record has an excluded id |
| VsphereSource.NewVSphereSourceDriver | guts/migration/drivers/sources/vsphere.py:59-61 | construction succeeds exactly when the exclude option splits, giving an unconnected driver with the split ids |
| OpenStackResources.SetupOutcome | guts/migration/drivers/sources/openstack.py:70-100 | a missing auth_url is the ValueError; the setup succeeds exactly when there is an auth_url and the keystone version is 'v2' or 'v3'; any other version reads `sess` unbound |
| OpenStackResources.ServerRecord | guts/migration/drivers/sources/openstack.py:111-113 | a server record has exactly its name, id and status |
| OpenStackResources.VolumeRecord | guts/migration/drivers/sources/openstack.py:131-133 | a volume record has exactly its display name as name, its id and its size |
| OpenStackResources.NetworkRecord | guts/migration/drivers/sources/openstack.py:151-159 | a network record has exactly the nine fields, its label serving as both name and label |
| OpenStackResources.AuthOptions | guts/migration/drivers/sources/openstack.py:225-228 | the command line's authentication options carry the configured user name, password, tenant and auth URL, each after its flag |
| OpenStackSource.OpenStackSourceDriver.constructor | guts/migration/drivers/sources/openstack.py:66-68 | the driver holds its source driver, configuration and conversion directory, and is not initialised |
| OpenStackSource.OpenStackSourceDriver.DoSetup | guts/migration/drivers/sources/openstack.py:70-100 | the setup's outcome is the session outcome of the configuration, and the driver is initialised once a setup succeeded |
| OpenStackSource.OpenStackSourceDriver.EnsureSetup | guts/migration/drivers/sources/openstack.py:103-104 | an initialised driver is left alone; otherwise the setup runs and the driver is initialised exactly when it succeeds |
| OpenStackSource.OpenStackSourceDriver.GetInstancesList | guts/migration/drivers/sources/openstack.py:102-120 | a failed setup propagates; a failed remote listing is swallowed and the method returns None; otherwise the servers whose id is not excluded, as name/id/status records in order |
| OpenStackSource.OpenStackSourceDriver.GetVolumesList | guts/migration/drivers/sources/openstack.py:122-140 | as for instances, over the Cinder volumes with name/id/size records |
| OpenStackSource.OpenStackSourceDriver.GetNetworksList | guts/migration/drivers/sources/openstack.py:142-166 | as for instances, over the Nova networks with their nine-field records |
| OpenStackSource.OpenStackSourceDriver.GetInstanceAsWritten | guts/migration/drivers/sources/openstack.py:168-187 | as written, the setup call without its context argument is a TypeError, and a failure before `image_id` is bound turns the handler's message into an UnboundLocalError; later failures behave as intended |
| OpenStackSource.OpenStackSourceDriver.GetInstance | guts/migration/drivers/sources/openstack.py:168-187 | without setup the context-less setup call is a TypeError; an initialised driver without failure returns the single disk `{'0': <conversion_dir>/<image id>}`; any failing step becomes InstanceImageDownloadFailed, naming the server before the snapshot exists and the image after |
| OpenStackSource.OpenStackSourceDriver.GetNetwork | guts/migration/drivers/sources/openstack.py:189-196 | network information is never fetched: the result is None |
| OpenStackSource.OpenStackSourceDriver.GetVolumeImage | guts/migration/drivers/sources/openstack.py:198-220 | when initialised the path `<conversion_dir>/<migration id>` is returned exactly when no step fails, and any failure is VolumeDownloadFailed naming the volume; without setup the context-less call is a TypeError |
| OpenStackSource.OpenStackSourceDriver.DownloadCommand | guts/migration/drivers/sources/openstack.py:222-230 | the download command is `glance` with the four authentication options, then the target file and the image id last |
| OpenStackSource.OpenStackSourceDriver.DownloadImage | guts/migration/drivers/sources/openstack.py:222-235 | a failing command becomes the generic Error, and only then |
| OpenStackSource.NewOpenStackSourceDriver | guts/migration/drivers/sources/openstack.py:66-68 | construction succeeds exactly when the exclude option splits, giving an uninitialised driver with the split ids and the configuration |
| OpenStackDriver.KeystoneVersion | guts/migration/drivers/openstack.py:87-100 | the version is the auth URL's last path segment when that is a supported version, and the configured version otherwise |
| OpenStackDriver.KeystoneVersionAsWritten | guts/migration/drivers/openstack.py:88-95 | as written an unsupported URL segment reaches the undefined `_LW` and is a NameError; a supported one gives the intended version |
| OpenStackDriver.Scoped | guts/migration/drivers/openstack.py:102-116 | the scope check changes nothing but the tenant, domain and project fields, and fails only with OpenStackException |
| OpenStackDriver.Init | guts/migration/drivers/openstack.py:63-116 | username, password and auth URL are checked in that order, each missing one raising its OpenStackException; the password stored is the encoded one; the version is the URL's or the configured one; creation succeeds exactly when a v2 version has a tenant name and a v3 version has both a domain name and a project id |
| OpenStackDriver.InitAsWritten | guts/migration/drivers/openstack.py:63-116 | as written, a URL not ending in a supported version raises NameError once the credentials are present; otherwise it agrees with the intended initialisation |
| OpenStackDriver.GetCredsParams | guts/migration/drivers/openstack.py:119-122 | the credential parameters are seven distinct names: username, password, tenant name, auth URL, keystone version, project id and domain name |
| OpenStackDriver.GetDriverCapab | guts/migration/drivers/openstack.py:125-126 | the driver's capabilities are three distinct names, exactly the resource types the OpenStack source driver supports |
| OpenStackDriver.GetCredentials | guts/migration/drivers/openstack.py:128-145 | v2 credentials are username, password, tenant name, auth URL and version; v3 credentials are username, password, auth URL, version, project id and domain name; any other version reads the dict unbound |
| OpenStackDriver.CredentialsWithinParams | guts/migration/drivers/openstack.py:118-145 | every credential key is one of the driver's credential parameters |
| OpenStackDriver.ValidatedCredentials | guts/migration/drivers/openstack.py:63-145 | a driver created with version v2 or v3 has credentials carrying the configured user name, the encoded password and a non-empty tenant, or project and domain |
| OpenStackDriver.FirstUnsupported | guts/migration/drivers/openstack.py:189-190 | the position of the first unsupported resource type, every earlier one being supported |
| OpenStackDriver.CapabilityCheck | guts/migration/drivers/openstack.py:188-193 | the capabilities pass exactly when every entry is a supported resource type; otherwise the first unsupported one is named in the OpenStackException |
| OpenStackDriver.CheckCapabilities | guts/migration/drivers/openstack.py:189-193 | the loop over the capabilities computes the check |
| OpenStackDriver.CapabilityItemsAsWritten | guts/migration/drivers/openstack.py:188-189 | as written the loop iterates the option string one character at a time |
| OpenStackDriver.CapabilityItems | guts/migration/drivers/openstack.py:188-189 | the intended entries are the comma-separated names of the option |
| OpenStackDriver.CapabilitiesAsWrittenRejectAll | guts/migration/drivers/openstack.py:188-193 | as written any non-empty capabilities option is rejected, naming its first character |
| OpenStackDriver.CapabilitiesAccepted | guts/migration/drivers/openstack.py:183-193 | read as comma-separated names, an option listing supported resource types is accepted |
| OpenStackDriver.SupportedHasNoComma | guts/migration/drivers/openstack.py:183 | no supported resource type contains a comma |
| OpenStackDriver.OpenStackSourceDriver.constructor | guts/migration/drivers/openstack.py:184-193 | the driver holds its base driver, credentials, conversion directory and exclude ids, and is not connected |
| OpenStackDriver.OpenStackSourceDriver.InitializeConnection | guts/migration/drivers/openstack.py:147-178 | a missing auth URL is the ValueError; a version other than v2, v2.0, v3 or v3.0 reaches the OpenStackException built with two positional arguments, a TypeError; otherwise the session's outcome, and the driver is connected once one succeeded |
| OpenStackDriver.OpenStackSourceDriver.ListItems | guts/migration/drivers/openstack.py:199-211 | unconnected, the clients are missing (AttributeError); without an exclude list only an empty listing succeeds; otherwise the listing of the non-excluded items |
| OpenStackDriver.OpenStackSourceDriver.GetInstancesList | guts/migration/drivers/openstack.py:199-211 | the listing of the non-excluded servers as name/id/status records |
| OpenStackDriver.OpenStackSourceDriver.GetVolumesList | guts/migration/drivers/openstack.py:213-225 | the listing of the non-excluded volumes as name/id/size records |
| OpenStackDriver.OpenStackSourceDriver.GetNetworksList | guts/migration/drivers/openstack.py:227-246 | the listing of the non-excluded networks as nine-field records |
| OpenStackDriver.OpenStackSourceDriver.GetInstanceAsWritten | guts/migration/drivers/openstack.py:248-266 | as written a failure before `img` is bound makes the handler raise UnboundLocalError; later failures behave as intended |
| OpenStackDriver.OpenStackSourceDriver.GetInstance | guts/migration/drivers/openstack.py:248-266 | connected, the single disk `{'0': <conversion_dir>/<image id>}` is returned exactly when no step fails, and a failure is InstanceImageDownloadFailed |
| OpenStackDriver.OpenStackSourceDriver.GetVolumeImage | guts/migration/drivers/openstack.py:277-297 | connected, the path `<conversion_dir>/<migration id>` is returned exactly when no step fails, and a failure is VolumeDownloadFailed |
| OpenStackDriver.NewOpenStackSourceDriverAsWritten | guts/migration/drivers/openstack.py:181-193 | as written the driver never gets its exclude list and is created only when the character-by-character capability check passes |
| OpenStackDriver.NewOpenStackSourceDriver | guts/migration/drivers/openstack.py:181-193 | creation succeeds exactly when the exclude option splits, the credentials validate and every comma-separated capability is supported; the driver then holds the exclude ids and the credentials, unconnected |
| OpenStackDestination.UploadCommand | guts/migration/drivers/destinations/openstack.py:131-142 | the upload command is `glance` with the four authentication options, then `image-create` with the file and the image name |
| OpenStackDestination.BootCommand | guts/migration/drivers/destinations/openstack.py:149-157 | the boot command is `nova` with the four authentication options, then `boot` with the image, flavor 2 and the instance name |
| OpenStackDestination.CommandLine | guts/migration/drivers/destinations/openstack.py:107-157 | exactly the uploads, removals and boots run a command line, each the one the driver builds |
| OpenStackDestination.NetworkRun | guts/migration/drivers/destinations/openstack.py:92-100 | a failed setup propagates with nothing sent; otherwise one network creation, which fails as NetworkCreationFailed, or as a KeyError when the request has no label |
| OpenStackDestination.VolumeRun | guts/migration/drivers/destinations/openstack.py:102-129 | a failed setup propagates; a missing `mig_ref_id` is a KeyError before anything is sent; every later failure is VolumeCreationFailed naming the image; a success performs all six steps, ending with the image's deletion |
| OpenStackDestination.VolumeRunFollowsPlan | guts/migration/drivers/destinations/openstack.py:105-123 | the steps performed are a prefix of the upload, remove, find, create, wait and delete plan, and the whole plan is performed, successfully, exactly when the image is active and no step fails |
| OpenStackDestination.ImageNamesDistinct | guts/migration/drivers/destinations/openstack.py:164 | different disks of one migration upload under different image names |
| OpenStackDestination.InstanceRun | guts/migration/drivers/destinations/openstack.py:159-174 | a missing `disks` or `mig_ref_id` raises KeyError before anything is done; an empty disk list does nothing and succeeds; a run that does nothing either failed or had no disks |
| OpenStackDestination.DisksRunStops | guts/migration/drivers/destinations/openstack.py:163-174 | once a disk fails the later disks are not processed |
| OpenStackDestination.DisksRunSucceeds | guts/migration/drivers/destinations/openstack.py:159-174 | with nothing failing, the first disk is uploaded and booted and each later disk is uploaded, found and made into an 8 GB volume named after the instance, in order |
| OpenStackDestination.FirstDiskBoots | guts/migration/drivers/destinations/openstack.py:163-167 | a single disk is uploaded and then booted under the instance name |
| OpenStackDestination.UninitialisedStopsAtSecondDisk | guts/migration/drivers/destinations/openstack.py:159-174 | without a setup, `create_instance` never initialises the clients, so the second disk's image lookup is an AttributeError after its upload |
| OpenStackDestination.OpenStackDestinationDriver.constructor | guts/migration/drivers/destinations/openstack.py:57-59 | the driver holds its base driver and configuration, uninitialised, with nothing sent |
| OpenStackDestination.OpenStackDestinationDriver.DoSetup | guts/migration/drivers/destinations/openstack.py:61-90 | the setup's outcome is the session outcome, and the driver is initialised once one succeeded; nothing is sent |
| OpenStackDestination.OpenStackDestinationDriver.CreateNetwork | guts/migration/drivers/destinations/openstack.py:92-100 | the driver sends exactly the network run's actions and returns its outcome |
| OpenStackDestination.OpenStackDestinationDriver.CreateVolume | guts/migration/drivers/destinations/openstack.py:102-129 | the driver sends exactly the volume run's actions and returns its outcome |
| OpenStackDestination.OpenStackDestinationDriver.CreateInstance | guts/migration/drivers/destinations/openstack.py:159-174 | `disks` and `mig_ref_id` are read first, then the disks are processed; the driver sends exactly the instance run's actions |
| OpenStackDestination.OpenStackDestinationDriver.ProcessDisks | guts/migration/drivers/destinations/openstack.py:163-174 | the loop over the disks sends exactly the disks run's actions and returns its outcome |
| OpenStackDestination.NewOpenStackDestinationDriver | guts/migration/drivers/destinations/openstack.py:57-59 | creation fails with AttributeError without a configuration, and otherwise gives an uninitialised driver over it |
| MigrationService.SaveLog.constructor | guts/migration/manager.py:321 | the save log starts empty |
| MigrationService.MigrationRecord.constructor | guts/migration/manager.py:335-337 | a migration record holds its id, source instance, status and event |
| MigrationService.MigrationRecord.Save | guts/migration/manager.py:337 | a save writes the record's current status and event, after every earlier save |
| MigrationService.ResourceRecord.constructor | guts/migration/manager.py:318-325 | a resource record holds its id, type, source id, evaluated properties and migrated flag |
| MigrationService.ResourceRecord.Save | guts/migration/manager.py:470-471 | a save writes the record's current migrated flag, after every earlier save |
| MigrationService.LiteralEval | guts/migration/manager.py:325 | evaluating the properties succeeds exactly when they are a literal, giving the dict it denotes; otherwise a ValueError |
| MigrationService.CastRequest | guts/migration/manager.py:99-110 | a keyword argument named like one of the function's parameters is a TypeError, and otherwise one request carrying the arguments unchanged goes to `guts-destination.<host>` |
| MigrationService.CastAdmitsWith | guts/migration/manager.py:99-110 | adding a key that is not a parameter name neither makes the arguments admissible nor stops them being so |
| MigrationService.DestinationTopic | guts/migration/manager.py:101 | the destination topic is `guts-destination.` followed by exactly the host name |
| MigrationService.TopicsSeparateHosts | guts/migration/manager.py:101 | requests to different destination hosts go to different topics |
| MigrationService.FreeSpace | guts/migration/manager.py:113-126 | a failing `df`, a missing second line or fourth field, or a non-integer field all become the same GutsException; a success is the integer in the fourth field of the second line |
| MigrationService.FreeSpaceOfReport | guts/migration/manager.py:116-120 | for a `df` report of a header and one row, the free space is the row's Available column |
| MigrationService.IntTextIsWord | guts/migration/manager.py:120 | the text of an integer is a non-empty word without blanks |
| MigrationService.LockName | guts/migration/manager.py:142-147 | the lock of an operation is the rendered source instance id, a dash, then exactly the operation's name |
| MigrationService.LockSeparatesOperations | guts/migration/manager.py:142-150 | two operations on the same source VM take the same lock only when they are the same operation |
| HypervisorRegistration.HypervisorName | guts/migration/manager.py:180-183 | a section's hypervisor is named by its `name` option when set, otherwise `<host>@<section>` |
| HypervisorRegistration.DefaultNamesSeparateSections | guts/migration/manager.py:183 | two sections without a name option register under different names |
| HypervisorRegistration.HypervisorFields | guts/migration/manager.py:185-196 | the dictionary a section builds has exactly name, driver, capabilities, conversion directory, exclude, type, registered host and credentials, each from its option or argument |
| HypervisorRegistration.StoredFieldsKept | guts/migration/manager.py:197-205 | what update-and-save or create writes of the dictionary is exactly its entries that are Hypervisor fields and hypervisors columns |
| HypervisorRegistration.RegistrationFieldsOfObject | guts/objects/hypervisors.py:38-51 | `exclude` and `registered_host` are not Hypervisor fields; the other six keys are |
| HypervisorRegistration.RegistrationFieldsOfRow | guts/db/sqlalchemy/models.py:49-60 | `conversion_dir` is no column of the hypervisors table; name, driver, capabilities, type and credentials are |
| HypervisorRegistration.RegistrationStores | guts/migration/manager.py:185-205 | a section's row gets its name, driver, capabilities, type and credentials; its conversion directory, exclude list and registering host never reach the table |
| HypervisorRegistration.UpsertChangesOneName | guts/migration/manager.py:197-205 | an upsert adds at most the one name, keeps every other hypervisor, writes every column it is given and keeps the columns it is not given |
| HypervisorRegistration.UpsertIdempotent | guts/migration/manager.py:197-205 | loading the same section twice leaves the table as one load does |
| HypervisorRegistration.SectionsToLoad | guts/migration/manager.py:163-167 | the source sections are loaded as sources, then the destination sections as destinations, and nothing when no source is enabled |
| HypervisorRegistration.MigrationManager.constructor | guts/migration/manager.py:160-162 | the manager holds its host, the configured host and the hypervisor table |
| HypervisorRegistration.MigrationManager.LoadHypervisor | guts/migration/manager.py:176-206 | a failure to build the driver or read its credentials leaves the table unchanged; otherwise the section's hypervisor is upserted with the fields that reach its row |
| HypervisorRegistration.MigrationManager.LoadedStep | guts/migration/manager.py:163-167 | loading one more section gives its credentials' error, or the table with that section's row upserted |
| HypervisorRegistration.MigrationManager.LoadAll | guts/migration/manager.py:163-167 | the loading loops compute the table after loading every section in order, or stop at the first error |
| HypervisorRegistration.MigrationManager.LoadedStops | guts/migration/manager.py:163-167 | once a section fails to load, the later sections are not loaded |
| HypervisorRegistration.MigrationManager.LoadedRegisters | guts/migration/manager.py:163-206 | a complete load registers exactly the loaded sections' names besides the hypervisors already there, and keeps every hypervisor of another name as it was |
| SourceService.VmdkBecomesQcow2 | guts/migration/manager.py:310 | a path ending in `.vmdk`, with no other occurrence, is converted to the same stem with `.qcow2` |
| SourceService.PathWithoutVmdkKept | guts/migration/manager.py:310 | a path without `.vmdk` keeps its name |
| SourceService.ConvertAllStops | guts/migration/manager.py:307-314 | once a conversion fails the later disks are not converted |
| SourceService.ConvertAllSucceeds | guts/migration/manager.py:304-314 | when no conversion fails, every disk is converted once, in order, to its qcow2 path under the same index |
| SourceService.DiskList | guts/migration/manager.py:326 | the disks sent hold one single-entry dict per disk, from its index to its path |
| SourceService.InstanceRequest | guts/migration/manager.py:325-328 | unevaluable properties are a ValueError; otherwise a `create_instance` request to the destination's topic carrying the properties with `disks` set to the converted disks, sent exactly when the properties name no parameter |
| SourceService.VolumeRequest | guts/migration/manager.py:340-343 | as for instances, a `create_volume` request carrying the properties with `path` set to the downloaded volume |
| SourceService.NetworkRequest | guts/migration/manager.py:353-354 | a `create_network` request to the destination's topic carrying the network properties unchanged, sent exactly when they name no parameter |
| SourceService.CreateOperation | guts/migration/manager.py:292-302 | only instances, volumes and networks are handled |
| SourceService.ResourcesReported | guts/migration/manager.py:362-378 | the report fails exactly when listing a known capability fails; otherwise it holds exactly the known, listed capabilities with a non-empty listing, each mapped to its listing |
| SourceService.SourceStatus | guts/migration/manager.py:358-378 | the status has exactly the capabilities, the free space and the resources |
| SourceService.SourceReport | guts/migration/manager.py:357-379 | a capabilities option that is no string is an AttributeError; a free-space failure propagates; a report is the status of the comma-separated capabilities, the free space and the collected resources |
| SourceService.SourceManager.constructor | guts/migration/manager.py:216-270 | the manager holds its host and configuration, with nothing cast, converted or reported |
| SourceService.SourceManager.ConvertDisks | guts/migration/manager.py:304-314 | the conversion loop runs exactly the conversions of the specification and returns its disks |
| SourceService.SourceManager.GetInstance | guts/migration/manager.py:316-328 | the migration is saved first; a failed download or conversion propagates with nothing cast; otherwise at most the one `create_instance` request is cast |
| SourceService.SourceManager.GetVolume | guts/migration/manager.py:330-343 | the migration is marked Inprogress / Fetching from source and saved; a failed download propagates; otherwise at most the one `create_volume` request is cast |
| SourceService.SourceManager.GetNetwork | guts/migration/manager.py:345-354 | unevaluable properties fail before the migration changes; otherwise the migration is marked and saved, and at most the one `create_network` request is cast |
| SourceService.SourceManager.GetResource | guts/migration/manager.py:290-302 | an instance, a volume and a network each get exactly what GetInstance, GetVolume and GetNetwork promise; an unknown type does nothing; only an instance converts; at most one request is cast, with the type's operation and the destination's topic |
| SourceService.SourceManager.CollectResources | guts/migration/manager.py:362-378 | the loop over the capabilities computes the resources |
| SourceService.SourceManager.ReportDriverStatus | guts/migration/manager.py:356-379 | a successful report becomes the published capabilities; a failing one is raised and leaves them as they were |
| SourceService.ResourcesStop | guts/migration/manager.py:363-375 | once a listing fails the later capabilities are not listed |
| DestinationService.HandlerSaveOrder | guts/migration/manager.py:451-514 | the resource is saved as migrated exactly when the driver succeeded, as the last save, right after the migration's COMPLETE save; an ERROR save follows the first save exactly when the failure is of the class caught |
| DestinationService.DestinationReport | guts/migration/manager.py:438-444 | the report succeeds exactly when the free space is read, and then holds exactly the configured capabilities and the free space |
| DestinationService.DestinationManager.constructor | guts/migration/manager.py:394-419 | the manager holds its host and configuration, with no driver call and nothing reported |
| DestinationService.DestinationManager.ReportDriverStatus | guts/migration/manager.py:438-449 | a successful report becomes the published capabilities; a failing one is raised and leaves them as they were |
| DestinationService.DestinationManager.Conclude | guts/migration/manager.py:458-471 | after the Creating save, the driver is called once; success marks the migration COMPLETE and the resource migrated; a caught failure marks it ERROR and is re-raised; any other failure escapes with the migration left Creating at destination |
| DestinationService.DestinationManager.CreateNetwork | guts/migration/manager.py:451-471 | a request without `id` or `name` is a KeyError before anything changes; otherwise the driver gets the request without them and the handler concludes, catching NetworkCreationFailed |
| DestinationService.DestinationManager.CreateVolumeAsWritten | guts/migration/manager.py:473-493 | as written the handler catches NetworkCreationFailed, so a VolumeCreationFailed escapes with the migration left Creating at destination |
| DestinationService.DestinationManager.CreateVolume | guts/migration/manager.py:473-493 | a request without `id` is a KeyError before anything changes; otherwise the driver gets it without `id` and with `mig_ref_id`, and a VolumeCreationFailed marks the migration ERROR |
| DestinationService.DestinationManager.CreateInstance | guts/migration/manager.py:495-514 | the driver gets the request with `mig_ref_id`; success marks the migration COMPLETE and the resource migrated, and other failures leave both as they were |
| DestinationService.VolumeFailuresEscapeHandler | guts/migration/manager.py:482-488 | no failure of the driver's `create_volume` is a NetworkCreationFailed, so the handler as written never marks a volume ERROR |
| DestinationService.DisksNeverFailNetwork | guts/migration/drivers/destinations/openstack.py:159-174 | no failure of the disk loop is a NetworkCreationFailed |
| DestinationService.InstanceFailuresEscapeHandler | guts/migration/manager.py:503-509 | no failure of the driver's `create_instance` is a NetworkCreationFailed, so the instance handler never marks ERROR |
| HypervisorViews.Item | guts/api/views/hypervisors.py:41-46 | subscripting a hypervisor succeeds exactly when the key is present, giving its value, and is a KeyError otherwise |
| HypervisorViews.Status | guts/api/views/hypervisors.py:46 | the status is Enabled exactly when the hypervisor is enabled, and Disabled otherwise |
| HypervisorViews.Summary | guts/api/views/hypervisors.py:37-48 | the summary succeeds exactly when the hypervisor has the six shown keys and a string driver; a missing key is a KeyError and a driver that is no string an AttributeError |
| HypervisorViews.SummaryShows | guts/api/views/hypervisors.py:39-48 | the summary shows exactly id, name, type, capabilities and status, with the driver cut to its last dotted segment |
| HypervisorViews.Detail | guts/api/views/hypervisors.py:50-68 | the detail succeeds exactly when the hypervisor has the six shown keys, and a missing one is a KeyError |
| HypervisorViews.DetailKeys | guts/api/views/hypervisors.py:52-68 | the detail shows exactly its thirteen fields |
| HypervisorViews.DetailShows | guts/api/views/hypervisors.py:54-59 | the detail copies id, name, type, driver and capabilities, and the status by `enabled` |
| HypervisorViews.DetailRenames | guts/api/views/hypervisors.py:60-66 | the optional fields are read with a None default, `host` shown as registered_host and the exclude lists as exclude_by_uuid and exclude_by_names |
| HypervisorViews.SummaryAbridgesDetail | guts/api/views/hypervisors.py:37-68 | a hypervisor that can be summarised can be detailed, and its summary is part of its detail except that the driver is cut to its last segment |
| HypervisorViews.SummaryShowsClassName | guts/api/views/hypervisors.py:44 | for a dotted driver path the summary shows its class name |
| HypervisorViews.Record | guts/api/views/hypervisors.py:72-73 | one hypervisor's entry in a list, present exactly when its view succeeds |
| HypervisorViews.Records | guts/api/views/hypervisors.py:72-73 | the list comprehension succeeds exactly when every hypervisor's view does, keeping one entry per hypervisor in order; otherwise the error is some hypervisor's |
| HypervisorViews.ListView | guts/api/views/hypervisors.py:70-77 | `_list_view`, and with it `summary_list` and `detail_list` (lines 27-35), answers `{'hypervisors': [...]}` over the summaries or details, or an entry's error |
| HypervisorViews.SummaryListAbridgesDetailList | guts/api/views/hypervisors.py:27-35 | a hypervisor list that can be summarised can be detailed, with one entry per hypervisor in both |
| VmViews.Trimmed | guts/api/views/vms.py:24-27 | a trimmed VM has exactly id, name, source_id and description, each None when absent |
| VmViews.TrimIdempotent | guts/api/views/vms.py:24-27 | trimming a trimmed VM changes nothing |
| VmViews.TrimSeesOnlyKeptKeys | guts/api/views/vms.py:24-27 | VMs that agree on the four kept keys trim alike |
| VmViews.Show | guts/api/views/vms.py:22-28 | a brief show is the trimmed VM, and a full one wraps it under `vm` |
| VmViews.Index | guts/api/views/vms.py:30-33 | the index lists every VM, in order, as its brief show |
| VmViews.ShowAgreesWithIndex | guts/api/views/vms.py:22-33 | a VM's full show wraps the same trimmed record the index lists |
| ServicesApi.Alive | guts/api/v1/sources.py:65-68 | a service without either timestamp is a TypeError; otherwise it is up exactly when its last update, or its creation when never updated, lies within the down time of now in either direction |
| ServicesApi.HostParts | guts/api/v1/sources.py:70-71 | a host that is no string is an AttributeError and one without '@' an IndexError; otherwise the first two '@'-separated parts, the first leading the host |
| ServicesApi.HostPartsOfServiceHost | guts/api/v1/sources.py:70-71 | a host written `<host>@<hypervisor name>` splits back into its two parts |
| ServicesApi.Entry | guts/api/v1/sources.py:64-72 | a service's entry exists exactly when its liveness and its host parts can be computed |
| ServicesApi.EntryShows | guts/api/v1/sources.py:64-72 | a timestamp error comes before a host error; an entry has exactly status, host, hypervisor_name and id, with status Up exactly when the service is alive and Down otherwise |
| ServicesApi.Entries | guts/api/v1/sources.py:63-73 | the loop succeeds exactly when every service's entry does, with one entry per service in order |
| ServicesApi.Index | guts/api/v1/sources.py:55-74 | the index is `{'sources': [...]}` (or `destinations`) over the entries, or the first entry's error |
| ServicesApi.EntriesStop | guts/api/v1/sources.py:63-73 | once a service's entry fails the listing fails, and the services after it do not change the error |
| ServicesApi.Show | guts/api/v1/sources.py:76-95 | a service not found is HTTPNotFound and any other lookup error propagates; a found service is shown under `source` (or `destination`) exactly when its entry can be made, with the entry plus its binary |
| ServicesApi.ShowExtendsIndexEntry | guts/api/v1/sources.py:63-95 | a shown service carries its listed entry and its binary, nothing else |
| HypervisorsApi.EnabledValue | guts/api/v1/hypervisors.py:77-78 | the `enabled` filter becomes 1 exactly when its text is `true` in any letter case, and 0 otherwise |
| HypervisorsApi.EnabledFilter | guts/api/v1/hypervisors.py:75-78 | the filters keep every query parameter, converting only `enabled` |
| HypervisorsApi.Show | guts/api/v1/hypervisors.py:99-107 | any lookup failure becomes HTTPNotFound; a found hypervisor is shown in detail |
| HypervisorsApi.Properties | guts/api/v1/hypervisors.py:187 | the request body's `hypervisor` entry, a KeyError when it is missing |
| HypervisorsApi.DriverOf | guts/api/v1/hypervisors.py:189-200 | the request passes exactly when it has a non-empty name and a non-empty driver path naming an importable class; an empty name is reported before an empty driver |
| HypervisorsApi.TypeAsWritten | guts/api/v1/hypervisors.py:202-209 | as written only source drivers get a type; every other class is rejected with the bad-type error |
| HypervisorsApi.HypervisorType | guts/api/v1/hypervisors.py:202-209 | the intended type is `source` for source drivers and `destination` for destination drivers, and any other class is rejected |
| HypervisorsApi.DestinationDriversRejectedAsWritten | guts/api/v1/hypervisors.py:205 | as written a destination driver is rejected though its type is evidently `destination`; for every other family both readings agree |
| HypervisorsApi.KnownHosts | guts/api/v1/hypervisors.py:224-230 | the requested hosts kept are exactly the migration hosts requested |
| HypervisorsApi.Dedup | guts/api/v1/hypervisors.py:237 | removing duplicates keeps exactly the same hosts, each once |
| HypervisorsApi.AllowedHostsAsWritten | guts/api/v1/hypervisors.py:211-237 | as written, no allowed hosts means every migration host; `*` means all of them, with no migration host a NameError; otherwise the requested known hosts, but any unknown host reaches the undefined `_LE` and is a NameError |
| HypervisorsApi.AllKnownAreKept | guts/api/v1/hypervisors.py:224-231 | when every requested host is known and some is requested, the kept list is not empty |
| HypervisorsApi.AllowedHosts | guts/api/v1/hypervisors.py:211-237 | no allowed hosts means every migration host; otherwise the selected hosts without duplicates, and a request selecting none is a bad request |
| HypervisorsApi.AllowedHostsKept | guts/api/v1/hypervisors.py:217-237 | the allowed hosts are distinct and are exactly the migration hosts that were requested or covered by `*`; none is selected exactly when no migration host is |
| HypervisorsApi.AllowedHostsAgreeOnValidRequests | guts/api/v1/hypervisors.py:211-237 | on requests naming only known hosts, or `*` with some host running, both readings give the same hosts |
| HypervisorsApi.UnknownHostFailsAsWritten | guts/api/v1/hypervisors.py:224-228 | as written a request naming one known and one unknown host fails, where the intended reading keeps the known one |
| HypervisorsApi.ExcludeCheck | guts/api/v1/hypervisors.py:239-261 | an exclude pattern fails exactly when it is set and does not compile; as written the failure is a NameError (`_LE` and `hypervisor` are undefined), intended it is a bad request |
| HypervisorsApi.DefaultConversionDir | guts/api/v1/hypervisors.py:263-266 | the default conversion directory is the `migrations` directory under the state path |
| HypervisorsApi.DefaultDirectoryLostAsWritten | guts/api/v1/hypervisors.py:266 | as written the default directory is stored under `converson_dir`, which is no Hypervisor field, where `conversion_dir` is |
| HypervisorsApi.FirstIndex | guts/api/v1/hypervisors.py:276 | `list.remove` finds the first equal entry |
| HypervisorsApi.RemoveFirst | guts/api/v1/hypervisors.py:276 | `list.remove` takes exactly one occurrence of the value out, the first: the entries before it stay in place, the ones after it move up by one, and the multiset loses exactly one copy of the value |
| HypervisorsApi.ScanCapabilitiesAsWritten | guts/api/v1/hypervisors.py:273-281 | the loop that removes empty entries while iterating computes the as-written scan |
| HypervisorsApi.UnsupportedCapabilityAcceptedAsWritten | guts/api/v1/hypervisors.py:273-281 | as written `['', 'bogus']` is accepted, because removing the empty entry skips the next one; the intended check rejects it |
| HypervisorsApi.NonEmpty | guts/api/v1/hypervisors.py:274-277 | the kept capabilities are exactly the non-empty given ones |
| HypervisorsApi.CheckedCapabilities | guts/api/v1/hypervisors.py:268-282 | the capabilities pass exactly when every non-empty one is supported by the driver, giving the non-empty ones; otherwise an unsupported one is named |
| HypervisorsApi.ScanAgreesWithoutEmptyEntries | guts/api/v1/hypervisors.py:273-281 | without empty entries the as-written scan agrees with the intended check |
| HypervisorsApi.Credentials | guts/api/v1/hypervisors.py:284-293 | missing credentials are a bad request; given ones keep every key, with the password replaced by its encoding |
| HypervisorsApi.GivenCapabilities | guts/api/v1/hypervisors.py:269-273 | no given capabilities means the driver's; a given list is used as it is |
| HypervisorsApi.DirectoriesPlaced | guts/api/v1/hypervisors.py:263-266 | the intended directory step keeps every other property and leaves a non-empty `conversion_dir` |
| HypervisorsApi.PreparedDraft | guts/api/v1/hypervisors.py:187-266 | a request that passes the checks up to the directory keeps its name and driver, gets the type of its driver's family and the allowed hosts, and has a non-empty conversion directory |
| HypervisorsApi.CompletedProperties | guts/api/v1/hypervisors.py:268-293 | the complete properties add the checked capabilities and the encoded credentials and keep every other property |
| HypervisorsApi.CompletedDraft | guts/api/v1/hypervisors.py:268-293 | after the capability and credential steps, every capability stored is non-empty and supported, the credentials are encoded and the other properties kept |
| HypervisorsApi.CreatedProperties | guts/api/v1/hypervisors.py:183-293 | a request that is accepted is stored with its own non-empty name and driver, the type of its driver's family, its allowed hosts and a non-empty conversion directory |
| HypervisorsApi.CreatedCapabilities | guts/api/v1/hypervisors.py:268-293 | a request that is accepted is stored with only non-empty capabilities the driver supports and with its encoded credentials |
| HypervisorsApi.UnsupportedCapabilityRejected | guts/api/v1/hypervisors.py:278-281 | a non-empty capability the driver does not support makes the request a bad request |
| HypervisorsApi.ViewKeysAreFields | guts/api/views/hypervisors.py:41-59 | the keys the views subscript are Hypervisor fields, so a stored hypervisor can always be viewed |
| HypervisorsApi.LookupErrorEscapesAsWritten | guts/db/sqlalchemy/api.py:313-322 | a failed lookup by name is never the HypervisorNotFound that `create` catches as written: a missing name is ResourceNotFound |
| HypervisorsApi.MissCaughtAsIntended | guts/db/sqlalchemy/api.py:319-320 | a failed lookup is a ResourceNotFound exactly when the name is not stored, so catching ResourceNotFound creates exactly the missing names |
| HypervisorsApi.UnstoredFieldsLoadAsNone | guts/objects/hypervisors.py:38-51 | host, allowed_hosts, the exclude lists, conversion_dir and enabled are Hypervisor fields without a column, so any loaded row holds None for them |
| HypervisorsApi.CreatedAnswerShowsUnstored | guts/objects/hypervisors.py:78-85 | a created hypervisor's answer shows such a field as given, while its stored row, loaded again, holds None for it |
| Objects.FieldsIn | guts/objects/hypervisors.py:38-51 | the entries kept are exactly those whose keys are fields of the class, with their values |
| Objects.FieldAssignments | guts/api/v1/hypervisors.py:302-302 | the loop over the given keys collects exactly the entries whose keys are declared fields |
| Objects.VersionedObject.Update | guts/api/v1/hypervisors.py:302-308 | every given field is assigned and marked changed, other keys reach no field; on an object with no pending change the changes become exactly the given fields |
| HypervisorsApi.HypervisorsController.constructor | guts/api/v1/hypervisors.py:183-185 | the controller works on the given database |
| HypervisorsApi.HypervisorsController.SaveFound | guts/api/v1/hypervisors.py:296-303 | the found row, loaded and updated with the given fields, is saved under its id when any field is given, and shown in detail unless the save fails |
| HypervisorsApi.HypervisorsController.CreateNew | guts/api/v1/hypervisors.py:307-309 | properties with an id are ObjectActionError and nothing changes; otherwise the given fields are created as a row under the fresh id, and the new row, loaded, is shown in detail |
| HypervisorsApi.HypervisorsController.Store | guts/api/v1/hypervisors.py:295-310 | a found name is updated, a lookup error the handler catches creates the hypervisor, any other lookup error is the answer with the database untouched |
| HypervisorsApi.HypervisorsController.CreateAsWritten | guts/api/v1/hypervisors.py:183-310 | as written, any failing check returns its error with the database untouched; a found name is updated, and a name not found is never created: its lookup error is the answer |
| HypervisorsApi.HypervisorsController.Create | guts/api/v1/hypervisors.py:183-310 | any failing check returns its error with the database untouched; otherwise the checked properties update the hypervisor of that name, or create it when the name is not stored |

## Left out

- Missing exception classes: exception.py does not define some classes that the code raises or catches, such as ResourceNotFound, HypervisorNotFound and NetworkCreationFailed. The model treats them as existing GutsException subclasses.
- Missing `guts.utils` helpers: convert_image, synchronized, extract_host, `_get_all_migration_hostnames`, PasswordEncryption and remove_invalid_filter_options are not in guts/utils.py. Each is a parameter: its result, or the exception it raises.
- guts/db/__init__.py and guts/db/api.py: these modules are not part of this model. Every `db.<name>` call, from the objects, the managers and the migration base class alike, is assumed to reach the function of that name in guts/db/sqlalchemy/api.py. The guts/db/api.py of this snapshot lacks `migration_update` and every hypervisor and resource function, so taken literally nearly every database call would be an AttributeError.
- Database sessions, transactions, `_retry_on_deadlock`, `model_query`'s project_only filter and `order_by`: not modelled. Each query works on one table, in table order.
- created_at and updated_at timestamps: the clock is a parameter. Sub-second time deltas are not modelled.
- StringField coercion of object fields: not modelled. Values are stored as given.
- `str()` of lists and dicts written into text columns (allowed_hosts, capabilities, properties): the model keeps the structured value. `ast.literal_eval` of a stored properties text is that value, or ValueError where the text is not a literal.
- Disks are one-entry dicts. Mutating a disk dict in place after it has been appended is not modelled.
- Service and ServiceList objects: these are not in the source, so service records are plain dicts.
- Views: they read dicts, not object attributes.
- Scheduler filter and weigher handlers (`get_filtered_hosts` and `get_weighed_hosts`): these are foreign code. The filter scheduler handles them as parameters.
- HostManager.get_all_host_states pool aggregation: not modelled, because it uses an undefined `pools`. update_backend and eventlet sleeps are not modelled either.
- Remote clients, the vSphere keep-alive thread and the image-status polling loops: each call is one outcome appended to a trace. Each polling loop is a single outcome: active, or the error raised.
- guts/migration/drivers/vsphere_old.py, get_client_params in guts/migration/drivers/vsphere/client.py:190, and the superseded delegation layers guts/migration/driver.py and guts/migration/sources.py: not part of this model.
- Logging and the RPC transport: not modelled. A cast is the request value it sends.
- Manager process setup: the `df` command line, service launching in the SourceManager constructor, init_host and publish_service_capabilities are not modelled. The output of `df` is a parameter.
- MigrationService.CastRequest: only checks `info` keys against `_cast_to_destination`'s own parameter names. Python's other keyword-argument errors are not modelled.
- HypervisorRegistration.MigrationManager.LoadAll: the driver's credentials text (`str(credentials)`) is a parameter.
- HypervisorRegistration: the manager's table is a map from name to the columns written. Row ids, timestamps, the admin context of the lookup and soft-deleted rows are not modelled there; the database model's lookup, update and create are modelled for the API controller.
- HypervisorsApi: an allowed_hosts or capabilities value that is truthy but not a list is a TypeError in the model. Python would iterate a string character by character.
- HypervisorsApi.AllowedHosts: `list(set(...))` order is not modelled. The model keeps first occurrences in order.
- HypervisorsApi: webob's rejected `explantion` keyword, ImportError's `msg` attribute, and the aliasing between the request's capability list and the driver's are not modelled. The misspelt keyword is treated as a BadRequest.
- HypervisorsApi.CheckedCapabilities: Python's `0 == False` inside `list.remove` is not modelled.
- MigrationVm.MigrationVM.constructor: `os.mkdir` failing, for instance when /tmp/guts does not exist or cannot be written, raises OSError out of the constructor; the model's directory creation always succeeds, and MigrationVm.CreateMigrationVmInstance therefore always returns a VM.
- OpenStackDestination.OpenStackDestinationDriver.CreateInstance, OpenStackDestination.InstanceRun: a `disks` value that is not a list is a TypeError in the model. Python iterates it instead: an empty string or dict processes nothing and succeeds, and a non-empty one steps through its characters or keys, failing at `disk[str(count)]` or later. Those runs are not modelled.
- Objects.VersionedObject.Update: `update` and the keyword constructor come from the object library, which is not part of this model. The model assigns each key as `setattr` would; a key that is not a field becomes a plain attribute, which the model drops because nothing it covers reads it.
- API pagination, sorting and filter cleaning: guts/api/common.py is not part of this model.
- Hypervisor API operations not modelled: HypervisorList.get_all in the index path, delete, enable, disable, get_creds_params, get_driver_capab and get_all_migration_hosts. Only the default path at hypervisors.py:265 of get_default_conversion_dir is modelled, and the driver's capabilities are a parameter.
- OpenStack source listings: they swallow remote errors and return None. The model returns an Option, and the log message is not modelled.
- Concurrency: the locks of `locked_migration_operation` are modelled by their names only.
- Concurrency: parallel handlers are not modelled.

## Findings

| source | as written | input that shows it | evidently intended | confidence | as-written member | corrected member |
|---|---|---|---|---|---|---|
| guts/db/sqlalchemy/api.py:424-428 | `_resources_get_by_source` filters on `source`, which is not a column of Resource | any call past the context check | filter on `source_hypervisor` | not executed | Db.Database.ResourcesBySourceRaises | Db.Database.ResourcesGetBySourceHypervisor |
| guts/db/sqlalchemy/api.py:431-441 | `resource_delete_all_by_source` lists through `_resources_get_by_source` | an admin context | delete the resources whose `source_hypervisor` is the source | not executed | Db.Database.ResourceDeleteAllBySourceAsWritten | Db.Database.ResourceDeleteAllBySource |
| guts/db/sqlalchemy/api.py:699-714 | `_get_get_method` builds `<plural>_get` from the class name, and GET_EXCEPTIONS is empty, so no backend function matches | get_by_id on models.Hypervisors, Resources or Migrations | every ORM class reaches its getter | not executed | Db.Database.GetByIdOfModels | Db.CorrectedGettersFound |
| guts/migration/drivers/driver.py:17-50 | the base listings build their message with `_`, which the module never imports | any call of the base get_instances_list, get_volumes_list or get_networks_list | import `_` from guts.i18n and raise NotImplementedError | not executed | MigrationDrivers.SourceDriver.ListingAsWritten | MigrationDrivers.SourceDriver.Listing |
| guts/migration/drivers/sources/vsphere.py:94-98 | `raise NotImplemented` raises a TypeError, because NotImplemented is not an exception | any call of get_networks_list or get_volumes_list | NotImplementedError | not executed | VsphereSource.VSphereSourceDriver.UnimplementedListingAsWritten | VsphereSource.VSphereSourceDriver.UnimplementedListing |
| guts/migration/drivers/openstack.py:91 | the warning uses `_LW`, which is not imported | an auth URL whose last path segment is not a supported version | log the warning and keep the configured version | not executed | OpenStackDriver.KeystoneVersionAsWritten | OpenStackDriver.KeystoneVersion |
| guts/migration/drivers/openstack.py:188-189 | the capabilities string is iterated character by character | capabilities "instance" | check each comma-separated capability | not executed | OpenStackDriver.CapabilitiesAsWrittenRejectAll | OpenStackDriver.CapabilitiesAccepted |
| guts/migration/drivers/openstack.py:23 | imports guts.migration.driver, whose SourceDriver has no exclude list | a non-empty instance listing | filter with the driver's exclude rules | not executed | OpenStackDriver.NewOpenStackSourceDriverAsWritten | OpenStackDriver.NewOpenStackSourceDriver |
| guts/migration/drivers/sources/openstack.py:168-187 | the error handler formats `image_id`, which is unbound when create_image raises | create_image failing | report the failure as InstanceImageDownloadFailed | not executed | OpenStackSource.OpenStackSourceDriver.GetInstanceAsWritten | OpenStackSource.OpenStackSourceDriver.GetInstance |
| guts/migration/drivers/openstack.py:248-266 | the error handler logs `img.id`, but `img` is unbound when a step at lines 253-255 raises, so the handler itself raises UnboundLocalError | `servers.get`, `create_image` or the first `images.get` failing | report the failure as InstanceImageDownloadFailed | not executed | OpenStackDriver.OpenStackSourceDriver.GetInstanceAsWritten | OpenStackDriver.OpenStackSourceDriver.GetInstance |
| guts/migration/manager.py:473-492 | create_volume catches NetworkCreationFailed | the destination raising VolumeCreationFailed | catch VolumeCreationFailed and mark the migration failed | not executed | DestinationService.VolumeFailuresEscapeHandler | DestinationService.DestinationManager.CreateVolume |
| guts/api/v1/hypervisors.py:203-209 | `isinstance(drv, DestinationDriver)` on a class is always false | a destination driver class | `issubclass` | not executed | HypervisorsApi.DestinationDriversRejectedAsWritten | HypervisorsApi.HypervisorType |
| guts/api/v1/hypervisors.py:224-236 | `_LE` is not imported, and `hypervisor` is undefined in the error path | an allowed host not running the migration service | skip the host, or reject when none is valid | not executed | HypervisorsApi.UnknownHostFailsAsWritten | HypervisorsApi.AllowedHostsAgreeOnValidRequests |
| guts/api/v1/hypervisors.py:264-266 | the default directory is stored under `converson_dir` | a request without conversion_dir | store the default under `conversion_dir` | not executed | HypervisorsApi.DefaultDirectoryLostAsWritten | HypervisorsApi.DirectoriesPlaced |
| guts/api/v1/hypervisors.py:273-283 | removing from the list being iterated skips the next entry | capabilities ['', 'bogus'] | reject 'bogus' | not executed | HypervisorsApi.UnsupportedCapabilityAcceptedAsWritten | HypervisorsApi.ScanAgreesWithoutEmptyEntries |
| guts/api/v1/hypervisors.py:295-309 | the handler catches HypervisorNotFound, but the lookup raises ResourceNotFound for a missing name | a hypervisor name not stored yet | catch ResourceNotFound and create the hypervisor | not executed | HypervisorsApi.LookupErrorEscapesAsWritten | HypervisorsApi.MissCaughtAsIntended |
