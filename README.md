# Craft CMS request and task rules, modelled in Dafny

This project models the decision logic of four files of the Craft CMS 3
code base and proves properties about it:

- **`src/base/Task.php`** is the base class of background tasks. The model covers:
  - the three status values and the validation rules;
  - the description fallback;
  - progress computed from the nullable step counters;
  - `runSubTask`, which stamps the parent ID on a subtask, saves it through the tasks service, and runs it only when saving succeeded.
- **`src/controllers/TemplatesController.php`** covers:
  - rendering a template only when it exists;
  - the offline page;
  - the requirements-check failure message, built requirement by requirement;
  - the error page, which picks its template through a chain of fallbacks from the status code and merges the template variables.
- **`src/controllers/GlobalsController.php`** covers:
  - choosing the site whose global content is edited;
  - building the handle-to-set map of the global sets the user may edit;
  - the lookup, permission and outcome branches of saving a global set and its content.
- **`src/controllers/ElementsController.php`** covers:
  - the element selector modal (source-key filter, `showSidebar` and `showSiteMenu`);
  - resolving the element being edited, including the fallback to the first site the user may edit;
  - the table attributes returned after a save;
  - the editor HUD response and its hidden inputs.

Framework services are parameters or oracles:

| Service | Modelled as |
|---|---|
| Which templates exist | two sets, site mode and control-panel mode |
| Which permissions the user holds | a set of permission names |
| ORM lookups | maps |
| Save and run outcomes | a boolean parameter for global sets; function-valued constants of the tasks service for tasks |
| Editor HTML, site names, table cell HTML | parameters |

The PHP semantics the controllers rely on are written out in `php.dfy` and `arrays.dfy`, except loose comparison, which `templates.dfy` defines where it is used:

- String truthiness: `""` and `"0"` are false.
- Integer-to-string conversion, proved to round-trip in both directions.
- Loose comparison of a numeric string with an integer (`Templates.LooselyEquals`).
- Arrays used as ordered dictionaries: assigning an existing key overwrites it in place, and a new key is appended.

Files:

- `php.dfy`: PHP scalars, truthiness, decimal text.
- `arrays.dfy`: ordered dictionaries.
- `http.dfy`: HTTP errors and the `Result` type.
- `tasks.dfy`, `templates.dfy`, `globals.dfy`, `elements.dfy`: one per source file.

Two places where the code behaves other than one might expect; the model keeps the code's behaviour:

- `getProgress` divides `currentStep` by `totalSteps` without checking for zero. `Tasks.Task.Progress` exposes that division by zero. `Tasks.Task.GuardedProgress` is the guarded variant (see Findings).
- `_getEditorHtmlResponse` assigns an empty array to `siteIds` (src/controllers/ElementsController.php:316) and fills `sites`. The model keeps both as written.

## Model

| member | source | states |
|---|---|---|
| Tasks.ParseStatus | src/base/Task.php:28-30 | a status string stands for a status exactly when it is `pending`, `running` or `error`, and it names that status |
| Tasks.StatusRoundTrip | src/base/Task.php:28-30 | each status constant parses back to its own status |
| Tasks.Validate | src/base/Task.php:38-44 | the attribute set validates (no failing attribute) exactly when `id`, `currentStep` and `totalSteps` pass the integer rule and `status` passes the range rule |
| Tasks.StatusRuleAcceptsExactlyTheStatuses | src/base/Task.php:42 | a non-empty status validates if and only if it is the name of one of the three statuses |
| Tasks.PrintedCountersValidate | src/base/Task.php:41-42 | counters given as the decimal text of any integers, with any of the three statuses, produce no validation error |
| Tasks.BooleanCounterRejected | src/base/Task.php:41 | a boolean step counter fails the integer rule |
| Tasks.TaskAttributesValidate | src/base/Task.php:38-44 | a task object's own attribute values fail the rules exactly when its status does, since its counters are integers or null |
| Tasks.Task.Description | src/base/Task.php:49-52 | the description when it is truthy; otherwise (null, `""` or `"0"`) the task type's display name, the default description of lines 102-105 |
| Tasks.Task.TotalSteps | src/base/Task.php:57-60 | the base task has zero steps |
| Tasks.Task.RunStep | src/base/Task.php:89-92 | every step of the base task succeeds |
| Tasks.Task.Progress | src/base/Task.php:65-72 | 0 when either counter is null; otherwise a quotient whose product with the total is the current step; a division by zero exactly when the current step is set and the total is 0 |
| Tasks.Task.GuardedProgress | src/base/Task.php:65-72 | agrees with the quotient whenever it exists, is 0 for a zero total, and lies in [0, 1] when 0 ≤ current ≤ total |
| Tasks.ZeroStepTaskDividesByZero | src/base/Task.php:57-72 | a task whose total is the base step count (0) and whose current step is 0 cannot report progress; the guarded variant reports 0 |
| Tasks.Task.RunSubTask | src/base/Task.php:114-130 | the subtask is created by the service only when a configuration is given; its parent ID is this task's ID when it is saved; it is run only when the save succeeded; the result is exactly the run's result, or false when saving failed; a given subtask keeps its ID, status, counters and description |
| Templates.Render | src/controllers/TemplatesController.php:52-60 | renders the template with the given variables if and only if it exists; otherwise fails with NotFound("Template not found") |
| Templates.Offline | src/controllers/TemplatesController.php:67-77 | the view switches to control-panel mode only on a site request without a site `offline` template; `offline` is always rendered; a site request in site mode stays in site mode exactly when the site has an `offline` template |
| Templates.FailureMessage | src/controllers/TemplatesController.php:102-108 | the message is the `<br /><br />` header followed by each erroring requirement's memo and `<br />`, built in a loop |
| Templates.ErrorMemosAppend | src/controllers/TemplatesController.php:102-108 | the memo list of a concatenation is the concatenation of the memo lists |
| Templates.ErrorMemosAt | src/controllers/TemplatesController.php:104-107 | an erroring requirement contributes its memo and a line break in list position; one whose error is not `true` contributes nothing |
| Templates.ErrorMemosEmpty | src/controllers/TemplatesController.php:104-107 | without erroring requirements, nothing follows the header |
| Templates.RequirementsCheck | src/controllers/TemplatesController.php:93-122 | with errors: a server error carrying the message for JSON requests, else the `_special/cantrun` page, with the cache untouched; without errors: `basePath` is cached and the result is null |
| Php.CanonicalIntTextRoundTrip | src/controllers/TemplatesController.php:136 | text in the form PHP prints an integer parses to a value that prints back as the same text, so such text is fixed by its value |
| Templates.StatusCode | src/controllers/TemplatesController.php:135-139 | the HTTP exception's truthy status code as the decimal text PHP prints (it parses back to the code and has no leading zero, which fixes it by Php.CanonicalIntTextRoundTrip), else `"500"` |
| Templates.StatusCode503 | src/controllers/TemplatesController.php:141-147 | the status code compares loosely equal to 503 exactly when the exception is an HTTP 503 |
| Templates.FirstAvailable | src/controllers/TemplatesController.php:141-151 | the first candidate that exists, none exactly when no candidate exists |
| Templates.SiteErrorPreference | src/controllers/TemplatesController.php:141-151 | on the site, `prefix+code` is preferred, then `prefix+offline` only for 503, then `prefix+error`; no site template exactly when none of these exist |
| Templates.ErrorVariables | src/controllers/TemplatesController.php:165-176 | the keys are `message`, `code`, `file`, `line` plus the exception's public properties, which override the defaults; for an ErrorException with HTML errors enabled the message is markup |
| Templates.RenderError | src/controllers/TemplatesController.php:129-179 | on a site request, the first existing site candidate; otherwise control-panel mode with the status code template if it exists, else `error`, rendered with the merged variables; a chosen template other than `error` exists in the mode it is rendered in, and the only other outcome is the control-panel `error` template |
| Globals.SaveSet | src/controllers/GlobalsController.php:38-79 | a truthy set ID that does not resolve fails with NotFound and changes nothing; otherwise the action succeeds: the set (found, keeping its ID and field values, or new and empty) gets the posted name, handle and a field layout of the global-set type, and is redirected with a notice or sent back with an error as saving reports |
| Globals.ChooseSite | src/controllers/GlobalsController.php:113-139 | Forbidden without editable sites; with a handle, NotFound for an unknown one, Forbidden for a site that is not editable, and that site when it is editable; without one, the current site if editable, else the first editable site; the chosen site is always editable |
| Globals.LastEditable | src/controllers/GlobalsController.php:142-152 | an editable set with that handle, none exactly when no such set exists |
| Globals.LastEditableIndex | src/controllers/GlobalsController.php:148-152 | the position of an editable set with the handle such that no later set is editable with that handle, -1 when there is none |
| Globals.LastEditableIsLast | src/controllers/GlobalsController.php:148-152 | the chosen set is the one at that last position, so a later duplicate handle wins |
| Globals.CollectEditableSets | src/controllers/GlobalsController.php:142-152 | the loop builds the handle-keyed map of editable sets, assigning them one after the other |
| Globals.EditablePairsLast | src/controllers/GlobalsController.php:148-152 | for each handle, the last assignment in the loop is to the last editable set with that handle |
| Globals.EditableSetMapContents | src/controllers/GlobalsController.php:142-152 | a handle is a key exactly when some editable set has it, and it maps to the last such set, so a later duplicate overwrites an earlier one |
| Globals.EditContent | src/controllers/GlobalsController.php:110-167 | the site choice and its errors; Forbidden when the handle is not a key of the editable map; a missing set argument defaults to the map entry |
| Globals.ContentSiteId | src/controllers/GlobalsController.php:179-181 | the posted site ID when truthy, else the primary site's ID as the decimal text PHP prints (it parses back to the ID and has no leading zero, which fixes it by Php.CanonicalIntTextRoundTrip) |
| Globals.SaveContent | src/controllers/GlobalsController.php:175-211 | a missing set ID is a bad request; the set and (on multi-site installs only) site permissions are required; an unknown set is NotFound; otherwise the posted field values are merged, the set's ID, name, handle and layout stay as loaded, and the outcome follows the save |
| Elements.ShowSiteMenu | src/controllers/ElementsController.php:48-52 | stays `auto` exactly when missing or equal to `auto`; any other value is cast to a boolean |
| Elements.FoundKeys | src/controllers/ElementsController.php:57-63 | a key is kept exactly when it was requested and its source exists |
| Elements.FilterSources | src/controllers/ElementsController.php:54-63 | the loop assigns each resolving source under its key, in request order |
| Elements.FoundPairsKeys | src/controllers/ElementsController.php:57-63 | the assignments made are exactly those of the kept keys, in order |
| Elements.FoundPairsLast | src/controllers/ElementsController.php:57-63 | the last assignment of a key carries its source exactly when the key was requested and resolves |
| Elements.FilteredSources | src/controllers/ElementsController.php:54-63 | the filtered sources hold the requested resolving keys once each in first-request order, each with its own source, and no other key |
| Elements.ListArray | src/controllers/ElementsController.php:65 | all sources of the type, in order |
| Elements.ShowSidebarHidden | src/controllers/ElementsController.php:68-73 | the sidebar is hidden exactly when there are no sources, or a single source without nested sources |
| Elements.GetModalBody | src/controllers/ElementsController.php:42-84 | the filtered sources when an array of keys is given, else all sources; `showSidebar` and `showSiteMenu` by their rules |
| Elements.ResolveElementType | src/controllers/ElementsController.php:214-233 | the posted type, else the type of the posted ID, succeeding exactly when that type is an element class; a bad request naming the type when it is not, and a missing-parameter bad request when neither gives a type |
| Elements.FirstPermittedSite | src/controllers/ElementsController.php:258-263 | the first site in site order that the element supports and the user may edit; none exactly when no site qualifies |
| Elements.FindEditableSite | src/controllers/ElementsController.php:251-263 | the search loop with `break` finds exactly the first qualifying site |
| Elements.EditorElement | src/controllers/ElementsController.php:206-292 | the type errors; a bad request for an ID with no element; Forbidden when the site must be switched and no site qualifies; a null dereference exactly when the element exists on the requested site but not on the site switched to; the element's `siteId` is the resolved site and overrides any posted one; once the element and its site are resolved, its properties are its stored ones (none for a new element) overwritten by the posted attributes and the site, and the result is that element exactly when it is editable, Forbidden otherwise; on every path, the stored elements other than the one resolved are unchanged |
| Elements.TableAttributesHtml | src/controllers/ElementsController.php:138-149 | table attributes are present exactly when a source key is posted and more than one attribute exists; they are built from all attributes but the first |
| Elements.CellPairsKeys | src/controllers/ElementsController.php:146-148 | each remaining attribute key is assigned, in order |
| Elements.CellPairsLast | src/controllers/ElementsController.php:146-148 | the last assignment of an attribute key carries its cell HTML |
| Elements.TableAttributesContents | src/controllers/ElementsController.php:143-148 | every attribute after the first maps to its cell HTML, in order, each once; the first one appears only if its key comes again |
| Elements.SiteOptions | src/controllers/ElementsController.php:318-325 | one `{id, name}` option per editable site, in order |
| Elements.EditorInputs | src/controllers/ElementsController.php:336-344 | the namespace input comes first; the `elementId` and `siteId` inputs appear exactly when those values are not null, `elementId` before `siteId`, with no other input, and carry their text |
| Elements.EditorHtml | src/controllers/ElementsController.php:336-348 | the `.=` assembly yields the hidden inputs followed by the editor in a meta div |
| Elements.ConcatAppend | src/controllers/ElementsController.php:339-346 | appending a piece with `.=` extends the concatenation of the rendered pieces by that piece |
| Elements.EditorHtmlStartsWithNamespace | src/controllers/ElementsController.php:336 | the editor HTML always starts with the namespace input |
| Elements.EditorHtmlResponse | src/controllers/ElementsController.php:303-355 | Forbidden exactly when no site is editable, a response otherwise; `siteIds` is an empty array and `sites` a list only with several sites when sites are requested, `sites` is null for one site and absent when not requested; the HTML is the namespaced editor HTML |

## Left out

- Translation (`Craft::t`) is not modelled. Messages are the source-language strings, with the placeholders substituted.
- The request guards are not modelled: `requirePostRequest`, `requireAcceptsJson`, `requireAdmin` and the controller's `beforeAction`. The `requirePermission` calls inside `actionSaveContent` are modelled, as Forbidden results.
- Rendering, JSON encoding, sessions, redirects and the URL manager are not modelled. A rendered page is the template name, the mode and the variables. The actions' outcomes are values.
- Persistence is not modelled. Saving a task or a global set is reported by an oracle. `actionSaveElement`'s save is assumed to succeed. Side effects such as assigning IDs or deleting sets are left out, as is `actionDeleteSet`.
- `Tasks.TasksService.CreateTask` does not apply the task settings to the created task. It records them in the call log.
- Tasks.Task.Progress: PHP floats are modelled as exact rationals (`real`). The division by zero is reported as an error value and does not distinguish PHP 7's warning and non-finite result from PHP 8's `DivisionByZeroError`.
- Only string (or null) statuses are modelled for the status rule. Yii's validators are framework code. Their behaviour (empty values skipped, the integer pattern, a loose range check, which equals a strict one for the string statuses modelled) is modelled from their documentation.
- Templates.RenderError: an exception is always being handled. The source reads the error handler's `exception` without a null check; with none, the action would fail at `getMessage()` after choosing the template.
- Elements.EditorElement:
  - A posted `siteId` or `elementId` is modelled as an integer. The source uses the raw posted text, also in the "No element exists" message.
  - A new element's `siteId` is null before the site check. The `Element` base class, which may set a default, is not part of this model.
  - Assigning attributes by name sets properties in a map. Setters and validation are not modelled.
- Elements.ResolveElementType: the bad-request message for a class that is not an element type carries the class name. `InvalidTypeException`'s exact wording is not part of this model.
- Numeric-string array keys stay strings. PHP converts them to integer keys, which changes neither order nor lookup here.
- The view's namespace (`setNamespace`, `namespaceInputs`) is not modelled. The editor HTML is given already namespaced.
- `StringHelper::randomString` becomes a parameter, the random namespace suffix.
- `actionSaveElement` is modelled only for its table attributes. Setting field values, `Craft::configure` of the posted parameters, and the failed-save editor response are left out. That response reuses `_getEditorHtmlResponse`, which is modelled.
- `actionGetCategoriesInputHtml` and `actionManualUpdateNotification` are not modelled. They only query and render.
- `src/web/AssetManager.php`, `src/views/debug/deprecated/detail.php`, `src/records/AssetTransform.php`, `src/io/flysystemadapters/Local.php` and `src/config/main.php` are not part of this model. They hold filesystem I/O, a view template, a table-name constant, an unimplemented adapter stub and static configuration.

## Findings

| source | as written | input that shows it | evidently intended | confidence | as-written member | corrected member |
|---|---|---|---|---|---|---|
| src/base/Task.php:65-72 | `getProgress` divides `currentStep` by `totalSteps` whenever both are set, and `getTotalSteps` of the base class is 0 | `currentStep = 0`, `totalSteps = 0` | a task with no steps reports progress 0 instead of dividing by zero | low; not executed (the task runner may never set a current step on a zero-step task) | Tasks.ZeroStepTaskDividesByZero | Tasks.Task.GuardedProgress |
