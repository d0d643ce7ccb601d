# Permission store and error pipeline of civil-work-planning-be, in Dafny

This project models two parts of a Django back end that manages departments,
sub-departments, roles, users, dashboards, permission templates and
permission grants:

1. **The relational store** (`user_management/models.py`). Seven tables
   hold the rows, and a single map from `(table, primary key)` to row models
   them. The model encodes every uniqueness rule the schema declares:
   - the `unique=True` columns;
   - the two `unique_together` pairs;
   - the four `UniqueConstraint`s on `permissions`, three of them with a
     `condition=`.

   It also encodes every foreign key, all of them `on_delete=CASCADE`. The
   two store operations are `Insert`, which saves a row or refuses it with an
   integrity error, and `Delete`, which removes a row and cascades.
   `Permission.__str__` is modelled too.
2. **The error/response pipeline**. This covers the `CustomException`
   constructor and its `str()` form, the `ApiResponse.success` and
   `ApiResponse.error` envelope builders, and `GlobalExceptionMiddleware`.
   The middleware is modelled as a pure function. It takes what the wrapped
   handler did (returned a response or raised an exception) and gives back
   either a response with the log lines written on the way, or the
   exception, if no `except` clause catches it.

Modules follow the source files:
- `Entities`, `Constraints`, `PermissionTiers`, `Insertion`, `Cascade` and
  `PermissionDisplay` model `models.py`.
- `Exceptions` models `exceptions.py`.
- `ApiResponse` models `response.py`.
- `ErrorHandler` models `error_handler.py`.
- `PyValues` holds the Python values the pipeline passes around, with
  Python's truthiness and `str()`.
- `Wrappers` holds `Option` and `Result`.

**Encoding assumptions for the uniqueness rules.**
- **Nulls are distinct.** A uniqueness rule is a condition on a row plus a
  projection of the row onto the constrained columns. Two rows violate the
  rule only if all of these hold:
  - both rows satisfy the condition;
  - their projections are equal;
  - the projection has no null component.

  This is the standard SQL semantics of unique constraints, and it decides
  which rule catches a duplicate grant. For example, a grant with a role and
  no sub-department is caught by no rule at all (`PermissionTiers.NonPrefixFallsThrough`).
- **Text compares exactly.** Names and e-mails are equal only when they are
  the same character sequence, so comparison is case- and
  trailing-space-sensitive, as in PostgreSQL and SQLite.
- **Conditional constraints are enforced.** The database enforces the
  constraints that carry a `condition=`, as PostgreSQL and SQLite do. Django
  does not create them on MySQL or MariaDB.

Where the code's declarations pull in different directions, the model
follows what the code does:
- **Sub-department names.** The `unique_together = ('name', 'department_id')`
  at user_management/models.py:33 suggests a name was meant to be unique
  only within its department. But `unique=True` on `name` at
  user_management/models.py:28 makes the name unique across all
  departments, and then the pair rule adds nothing.
- **Business exceptions.** The `CustomException` docstring
  (civilapp/common/exceptions.py:2-5) says these errors should return a
  clean message to the user. The `except CustomException` clause at
  civilapp/middleware/error_handler.py:44-50 would do that with the
  exception's own message, tag and status. It can never run; see Findings.
- **Separator in `Permission.__str__`.** The comment at
  user_management/models.py:149 says the level parts are joined with " / ".
  The code on the next line joins them with " + ", and the model uses " + ".

**Modelling choices:**
- `Insert` reports one cause. It checks the primary key first, then the
  foreign keys, then the uniqueness rules in declaration order, and reports
  the first check that fails. This order is the model's own. On PostgreSQL
  and SQLite, Django creates foreign keys `DEFERRABLE INITIALLY DEFERRED`,
  so there a row that both dangles and breaks a uniqueness rule is refused
  for the uniqueness rule. Whether a row is accepted does not depend on the
  order.
- A row's id is its key in the store map.
- A response carries a status code in 100..599 (`ApiResponse.StatusCode`),
  because the framework's response constructor raises `ValueError` for any
  other code. Only the `CustomException` clause passes a status it did not
  choose. With a status outside that range it logs its warning and then
  lets that `ValueError` out.
- Likewise a response holds only values `json.dumps` can encode
  (`PyValues.JsonValue`). `JsonResponse` encodes the body, message before
  data, before it checks the status, and raises `TypeError` for a value it
  cannot encode. Only the `CustomException` clause passes a message and
  data it did not build itself, so only it can let that `TypeError` out.
- The arrow in `Permission.__str__` is written as the three characters the
  model file holds (`â†’`).

## Model

| member | source | states |
|---|---|---|
| `Entities.CascadeEdges` | user_management/models.py:30-107 | an edge can only join these tables: sub-departments, users and grants to departments; users and grants to sub-departments and roles; grants to users and templates; templates to dashboards; nothing points to a grant |
| `Entities.ForeignKeysAreEdges` | user_management/models.py:30-107 | every declared foreign key is an edge: a sub-department's department; a user's department, sub-department and role; a template's dashboard; a grant's department, template and each set sub-department, role and user; departments, roles and dashboards point nowhere |
| `Entities.FieldDefaults` | user_management/models.py:61-108 | `is_active` and `allowed` default to true; a grant's optional sub-department, role and user default to null |
| `Constraints.NamesAreKeys` | user_management/models.py:15-73 | in a consistent store, the names of departments, sub-departments, roles and dashboards, and users' e-mails, each identify at most one row |
| `Constraints.OneTemplatePerAction` | user_management/models.py:96 | in a consistent store, at most one template exists per (dashboard, action name) |
| `Constraints.SubDepartmentPairRuleImplied` | user_management/models.py:28-33 | any pair that the `(name, department)` rule forbids is already forbidden by the unique name |
| `Constraints.SubDepartmentNameGlobal` | user_management/models.py:28 | two sub-departments with the same name collide even when their departments differ |
| `PermissionTiers.CollisionMeansSameScope` | user_management/models.py:114-138 | if any one of the four grant constraints catches two grants, they have the same department, sub-department, role, user and template, and the grant is prefix-shaped |
| `PermissionTiers.TierConstraintCatches` | user_management/models.py:114-138 | for two same-scope, prefix-shaped grants, exactly one constraint catches the pair: the one named after the grant's tier |
| `PermissionTiers.ConflictCharacterization` | user_management/models.py:114-138 | two grants conflict exactly when they agree on every reference and the template, and the grant's optional references form a prefix of (sub-department, role, user) |
| `PermissionTiers.DifferentTiersCoexist` | user_management/models.py:114-138 | grants at different tiers never conflict, so a department-tier grant and a sub-department-, role- or user-tier grant for the same template can both be stored |
| `PermissionTiers.DepartmentTierDuplicate` | user_management/models.py:116-120 | two grants with no sub-department, role or user, the same department and the same template collide under `unique_dept_permission` |
| `PermissionTiers.NullProjectionNeverCollides` | user_management/models.py:122-137 | a grant whose projection under a constraint contains a null collides with nothing under that constraint |
| `PermissionTiers.NonPrefixFallsThrough` | user_management/models.py:122-137 | a grant that is not prefix-shaped conflicts with no grant, not even an identical copy |
| `PermissionTiers.DuplicateRoleGrantStored` | user_management/models.py:128-132 | two identical role grants without a sub-department satisfy every uniqueness rule |
| `PermissionTiers.OneGrantPerScope` | user_management/models.py:114-138 | in a consistent store, two prefix-shaped grants with the same scope and template are the same row |
| `Insertion.Insert` | user_management/models.py:15-138 | a row is saved exactly when its key is free, every foreign key resolves and no uniqueness rule breaks; on success only that row is added; each refusal names a real cause; a consistent store stays consistent |
| `Insertion.DuplicateRejected` | user_management/models.py:114-138 | a row that collides with a stored row under some rule is refused |
| `Insertion.DuplicateNamesRejected` | user_management/models.py:15-73 | a department, role or dashboard with a stored name, or a user with a stored e-mail, is refused |
| `Insertion.SubDepartmentNameTakenRejected` | user_management/models.py:28-33 | a sub-department whose name is used under another department is refused with the name's own uniqueness rule |
| `Insertion.OtherTierGrantIrrelevant` | user_management/models.py:114-138 | whether a grant can be saved does not depend on stored grants of another tier |
| `Cascade.CascadeFrom` | user_management/models.py:30-107 | the computed set contains the start set, adds only stored rows, and is closed: every row that points into it is in it |
| `Cascade.CascadeLeast` | user_management/models.py:30-107 | the computed set lies inside every closed set that contains the start set |
| `Cascade.Delete` | user_management/models.py:30-107 | the target is gone and the remaining rows are unchanged; no remaining row points to the target or to a removed row; referential integrity and all uniqueness rules are preserved |
| `Cascade.DeleteRemovesOnlyDependents` | user_management/models.py:30-107 | every removed row lies in every closed set that contains the target, i.e. it depends on the target |
| `Cascade.RemovedRowsJustified` | user_management/models.py:30-107 | every removed row other than the target has a foreign key to the target or to another removed row |
| `Cascade.DeleteDepartmentCascades` | user_management/models.py:30-103 | after a department is deleted, none of its sub-departments, users or grants remain, and no foreign key dangles |
| `Cascade.DeleteRemovesGrantsOfUserAndTemplate` | user_management/models.py:106-107 | after a user is deleted no grant to that user remains, and after a template is deleted no grant of that template remains |
| `PermissionDisplay.PermissionStr` | user_management/models.py:140-157 | `str(permission)` is, in order: "<dashboard> - <action>", the arrow with a space on each side, the grant's level info, and " (Allowed: <flag>)"; it ends with "(Allowed: True)" exactly when the grant is allowed |
| `PermissionDisplay.LevelOfByTier` | user_management/models.py:142-150 | with non-empty names, the level info of a stored grant is: the department alone; the sub-department then the department; the role then the department; the role, sub-department, department; the role, user, sub-department, department; always joined with " + " |
| `PermissionDisplay.AllowedSuffix` | user_management/models.py:152-157 | the closing "(Allowed: …)" text tells the flag |
| `PermissionDisplay.LevelInfoOrder` | user_management/models.py:142-150 | the level info is joined with " + " in the order role, user, sub-department, department, for the four prefix-shaped tiers and for a role without a sub-department |
| `PermissionDisplay.EmptyNameDropped` | user_management/models.py:142-150 | in each of the four slots (role, user, sub-department, department), a part whose name is empty is dropped, just like a missing part |
| `PermissionDisplay.JoinKeepsParts` | user_management/models.py:150 | the length of the join is the parts' total length plus one separator between each pair of neighbours |
| `Exceptions.SubclassIsPartialOrder` | civilapp/common/exceptions.py:1 | the class hierarchy is reflexive, transitive and antisymmetric |
| `Exceptions.CustomExceptionIsAnException` | civilapp/common/exceptions.py:1 | only business exceptions are instances of `CustomException`, and every one of them is an instance of `Exception` |
| `Exceptions.NewCustomException` | civilapp/common/exceptions.py:8-17 | the message and status are kept as given; a truthy tag is kept; a falsy tag becomes "BUSINESS_ERROR" |
| `Exceptions.CustomExceptionDataStable` | civilapp/common/exceptions.py:15 | a constructed business exception always has a truthy tag, and rebuilding it from its own attributes changes nothing |
| `Exceptions.CustomExceptionDefaults` | civilapp/common/exceptions.py:8-20 | by default the tag is "BUSINESS_ERROR" and the status 400, and `str()` reads "BUSINESS_ERROR: <message>" |
| `Exceptions.CustomExceptionStrShape` | civilapp/common/exceptions.py:19-20 | `str()` of a business exception is the tag's text, then ": ", then the message's text |
| `Exceptions.ExcStr` | civilapp/common/exceptions.py:19-20 | `str()` of a business exception is the tag's text, then ": ", then the message's text; any other exception reads as its own text |
| `Exceptions.TagRecoverable` | civilapp/common/exceptions.py:19-20 | when the tag's text holds no ':', the first ':' of `str()` ends the tag and the message's text follows ": ", so both can be read back |
| `PyValues.Digits` | civilapp/common/exceptions.py:20 | `str()` of a non-negative `int`, as the tag's text uses it, is a non-empty run of decimal digits with no leading zero |
| `PyValues.DigitsRoundTrip` | civilapp/common/exceptions.py:20 | reading those digits back as a decimal number gives the original number, so the rendering loses nothing |
| `ApiResponse.Success` | civilapp/common/response.py:6-12 | a JSON body with exactly the keys success, message and data; reading it back gives success true and the given message, data and status (values `json.dumps` can encode and a status in 100..599, the only ones a response can carry) |
| `ApiResponse.Error` | civilapp/common/response.py:15-27 | a JSON body with exactly the keys success, message and data; reading it back gives success false and the given message, data and status (values `json.dumps` can encode and a status in 100..599, the only ones a response can carry) |
| `ApiResponse.BuilderDefaults` | civilapp/common/response.py:6-15 | the defaults are "Success", null and 200 for success, and "Error", null and 400 for error |
| `ApiResponse.SuccessFlagDistinguishes` | civilapp/common/response.py:9-22 | no success envelope equals an error envelope, and the `success` key tells them apart |
| `ApiResponse.EnvelopeRoundTrip` | civilapp/common/response.py:8-26 | reading any envelope back and rebuilding it with the builder its flag names gives the same response |
| `ErrorHandler.FirstMatchFrom` | civilapp/middleware/error_handler.py:17-50 | the chosen clause catches the exception and no earlier clause does; none is chosen only when no clause catches it |
| `ErrorHandler.FixedArm` | civilapp/middleware/error_handler.py:20-42 | each of the three clauses with a fixed message logs one warning and answers with an error envelope whose data is `str(ex)` |
| `ErrorHandler.CustomArm` | civilapp/middleware/error_handler.py:44-50 | the business-exception clause logs "Custom Error:" and answers with the exception's own message, tag and status exactly when the message and tag can be JSON-encoded and the status is in 100..599; otherwise it lets out `TypeError` for the message, else `TypeError` for the tag, else `ValueError` for the status |
| `ErrorHandler.RunArm` | civilapp/middleware/error_handler.py:20-50 | every `except` body logs exactly one warning; it answers with an error envelope unless it is the business-exception clause with a message or tag that cannot be JSON-encoded or a status outside 100..599 |
| `ErrorHandler.Middleware` | civilapp/middleware/error_handler.py:16-50 | a normal return passes through unchanged with no log line; only exceptions outside `Exception` escape, unchanged and unlogged; every caught exception gives one warning and an envelope with success false |
| `ErrorHandler.MiddlewareClassification` | civilapp/middleware/error_handler.py:20-42 | permission denial gives 403, the fixed message and `str(ex)`, logged as "Permission Denied:"; validation gives 400, "Validation error" and `str(ex)`, logged as "Validation Error:"; anything else, business exceptions included, gives 500, "Internal Server Error" and `str(ex)`, logged as "Exception Occured:" |
| `ErrorHandler.CustomArmUnreachable` | civilapp/middleware/error_handler.py:36-50 | no exception ever reaches the `except CustomException` clause |
| `ErrorHandler.BusinessExceptionBecomes500` | civilapp/middleware/error_handler.py:36-42 | a business exception is answered with 500, "Internal Server Error" and "<tag>: <message>" |
| `ErrorHandler.CorrectedBusinessException` | civilapp/middleware/error_handler.py:44-50 | with the catch-all moved last, a business exception is logged as "Custom Error:" and answered with its own message, tag and status; a message or tag that cannot be JSON-encoded raises `TypeError` whatever the status, and otherwise a status outside 100..599 raises `ValueError` |
| `ErrorHandler.CorrectionChangesOnlyBusinessExceptions` | civilapp/middleware/error_handler.py:20-50 | the corrected order agrees with the written order on every outcome except business exceptions |
| `ErrorHandler.DuplicatePermissionAsWritten` | civilapp/middleware/error_handler.py:36-42 | "Duplicate permission" with status 409 is answered with 500 and "BUSINESS_ERROR: Duplicate permission" |
| `ErrorHandler.DuplicatePermissionCorrected` | civilapp/middleware/error_handler.py:44-50 | with the corrected order, the same exception is answered with 409, "Duplicate permission" and "BUSINESS_ERROR" |

## Findings

| source | as written | input that shows it | evidently intended | confidence | as-written member | corrected member |
|---|---|---|---|---|---|---|
| civilapp/middleware/error_handler.py:36-50 | `except Exception` comes before `except CustomException`, so the business-exception clause can never run | a handler raising `CustomException("Duplicate permission", status=409)` is answered with 500 and "Internal Server Error" | a business exception is answered with its own status, message and tag | high; not executed | `ErrorHandler.CustomArmUnreachable` | `ErrorHandler.CorrectedBusinessException` |

## Left out

- Resolving a user's effective permission (user over role over sub-department over department): the code has no such resolver, so the model does not invent one.
- Updating a stored row (for example toggling `allowed`): only saving a new row and deleting are modelled.
- `created_at` and `updated_at`: they are set from the clock.
- `max_length` limits: whether they are enforced depends on the database backend and the validators.
- `Dashboard.config` and the envelope's `data`: they are opaque values. Turning the body into JSON text is a library call inside `JsonResponse`; the model keeps only whether it succeeds (`PyValues.Jsonable`) and the `TypeError` it raises when it does not.
- The JSON log formatter and logger set-up in `civilapp/common/logger.py`: they do I/O and read the clock. Only the logged event (level and message) is kept.
- `str()` of Django's `PermissionDenied` and `ValidationError`: this is framework code, so each exception carries its text as given.
- Non-scalar Python values (lists, dicts, model instances): their truthiness, `str()`, JSON encodability and the type name the encoder reports are given rather than computed.
- A `CustomException` status that is not an integer: the status is modelled as an integer, so the framework's handling of other types is not modelled.
- Exception subclasses of `PermissionDenied` or `ValidationError` are not modelled.
- Serializers, admin registration and URL routing: they only mirror fields or wire things up.
- How Django's request pipeline delivers exceptions to the middleware, concurrency, and transaction atomicity of the constraint checks.
