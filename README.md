# The `view` scaffolding generator, modelled in Dafny

This project models `ViewGenerator.GenerateCode`, the entry point of the MVC `view` code generator.
Given a request (`ViewGeneratorModel`), it does the following in order:

- validates the model type, then the view name, then the template name;
- strips one trailing view extension from the view name, ignoring case, and writes the result back into the request;
- looks up the data-context type on a best-effort basis;
- builds the output path `appBase / ViewsFolderName / model.Name / ViewName + ViewExtension`;
- refuses to overwrite an existing file unless `Force` is set;
- builds the template file name and the template model;
- hands both to the rendering service.

Files:

- `wrappers.dfy`: `Option`, which stands for a nullable C# reference.
- `ignore_case.dfy`: ordinal case-insensitive comparison (`EndsWith(..., OrdinalIgnoreCase)`).
- `view_generator.dfy`: the data model, the pure steps (stripping, paths, names, layout flag, data-context fallback) and the specification of a whole run.
  - `Generate` is one run as a value: how it ends, the view name it leaves in the request, and the host calls it makes.
  - `Emitted` is the part of a run after validation.
  - The lemmas prove the properties of these functions.
  - The file also holds the request class, the host and the generator class with `GenerateCode`.
- `scenarios.dfy`: end-to-end runs against a concrete host.

The host services are one object, `Host`. Its answers are fixed functions given at construction: the type validator, `File.Exists` and the metadata service. Every call made to it is appended to `Host.trace`. `GenerateCode` is proved to do exactly what `Generate` describes:

- it returns the same outcome;
- it leaves the same view name in the request object and changes no other request field;
- it appends exactly the calls `Generate` lists to the host's trace.

The order of the checks, "nothing before validation" and "rendered exactly once" are lemmas about `Generate`.

Three behaviours of the code are easy to misread:

- The view name is rejected only when it is null or empty (`string.IsNullOrEmpty`), not when it is empty after trimming. So a whitespace-only name passes (`Scenarios.WhitespaceNameReachesTemplateCheck`).
- The emptiness check runs before stripping, so a name that equals the extension passes and becomes `""` (`NameEqualToExtensionBecomesEmpty`).
- Stripping removes one copy of the extension and is not idempotent. `a.cshtml.cshtml` keeps one extension (`StripHappensOnce`).

`GenerateCode` is split into the validation part and `EmitView`, the part after validation (lines 86-133). This split is in the Dafny only; the source has one method.

## Model

| member | source | states |
|---|---|---|
| ViewGeneration.Generate | src/Microsoft.Framework.CodeGenerators.Mvc/ViewGenerator.cs:59-133 | A run starts with the validation of the model type. It makes one call when it ends in an argument error and three or five calls otherwise. It leaves a null view name exactly when the request's view name was null. |
| ViewGeneration.Emitted | src/Microsoft.Framework.CodeGenerators.Mvc/ViewGenerator.cs:86-131 | The steps after validation never end in an argument error: they end in a conflict with two calls or in a render with four. The view name they leave is the normalised one. |
| ViewGeneration.PassesValidation | src/Microsoft.Framework.CodeGenerators.Mvc/ViewGenerator.cs:65-84 | Validation passes exactly when the model type is valid and both the view name and the template name are non-null and non-empty. |
| ViewGeneration.IsNullOrEmpty | src/Microsoft.Framework.CodeGenerators.Mvc/ViewGenerator.cs:70 | A string is not null-or-empty exactly when it is present and has at least one character. |
| IgnoreCase.Fold | src/Microsoft.Framework.CodeGenerators.Mvc/ViewGenerator.cs:75 | A lower-case ASCII letter folds to its upper-case letter, 32 code points lower. Every other character is left unchanged. |
| IgnoreCase.SameIgnoringCase | src/Microsoft.Framework.CodeGenerators.Mvc/ViewGenerator.cs:75 | Equal strings agree ignoring case, and strings that agree ignoring case have the same length. |
| IgnoreCase.EndsWithIgnoringCase | src/Microsoft.Framework.CodeGenerators.Mvc/ViewGenerator.cs:75 | A string that ends exactly with the suffix ends with it ignoring case. A string that ends with the suffix is at least as long as the suffix. |
| ViewGeneration.CaseVariantsStripAlike | src/Microsoft.Framework.CodeGenerators.Mvc/ViewGenerator.cs:75-79 | Two view names that agree ignoring case both end with the extension or neither does. They strip to names that still agree ignoring case. |
| ViewGeneration.ViewGenerator.GenerateCode | src/Microsoft.Framework.CodeGenerators.Mvc/ViewGenerator.cs:59-133 | The method ends as `Generate` says for the request as it was on entry. The request's view name becomes the one `Generate` leaves, and no other request field changes. The host records exactly the calls `Generate` lists, in that order. |
| ViewGeneration.ViewGenerator.EmitView | src/Microsoft.Framework.CodeGenerators.Mvc/ViewGenerator.cs:86-133 | The steps after validation end as `Emitted` says for the normalised request, and the host records exactly the calls `Emitted` lists. |
| ViewGeneration.ValidationOrder | src/Microsoft.Framework.CodeGenerators.Mvc/ViewGenerator.cs:65-84 | A rejected model type gives ArgumentException with the validator's message. A valid model type with a null or empty view name gives "The ViewName cannot be empty". A valid model and view name with a null or empty template name gives "The TemplateName cannot be empty". Each of these happens after the model validation alone. Only the last comes after the view name was rewritten. |
| ViewGeneration.NothingHappensBeforeValidation | src/Microsoft.Framework.CodeGenerators.Mvc/ViewGenerator.cs:65-98 | A run ends in an argument error exactly when one of the three checks fails. It makes a call other than a type validation (a file probe, a metadata fetch, a render) exactly when all three pass. So the data-context lookup never causes an error. |
| ViewGeneration.ViewNameNormalised | src/Microsoft.Framework.CodeGenerators.Mvc/ViewGenerator.cs:70-79 | With a valid model type, a non-null, non-empty view name is replaced by its stripped form whatever happens later. A null or empty one is left as it was. |
| ViewGeneration.ConflictOnlyWithoutForce | src/Microsoft.Framework.CodeGenerators.Mvc/ViewGenerator.cs:86-104 | After validation the first three calls are the model validation, the data-context validation and the probe of the output path. The run is a conflict exactly when that file exists and `force` is off. A conflict names the path and makes no further call. Otherwise the run renders to that path. |
| ViewGeneration.EmittedCalls | src/Microsoft.Framework.CodeGenerators.Mvc/ViewGenerator.cs:86-131 | After validation come the data-context validation and the probe of the output path. A conflict stops there. A render adds a metadata fetch and then the render call. The fetch passes the data context's full name, or the raw name when the lookup failed, together with the model symbol. |
| ViewGeneration.RenderedExactlyOnce | src/Microsoft.Framework.CodeGenerators.Mvc/ViewGenerator.cs:111-131 | A run that renders has five calls: the metadata fetch is fourth and the render is fifth and last. A render call appears exactly once in such a run and never in any other run. |
| ViewGeneration.RenderedCallContents | src/Microsoft.Framework.CodeGenerators.Mvc/ViewGenerator.cs:92-131 | A render has passed validation. Its output path is the request's output path and its template file is the template name plus the Razor template extension. The folders are the generator's folders. The template model holds the normalised view name, the layout page, the partial-view and script flags, the model's full and short names, the layout flag (default layout or a non-empty layout page), jQuery "1.10.2", and the metadata fetched with the data-context full name or the raw name. The fourth call of the run is the fetch with exactly those arguments. |
| ViewGeneration.ExtensionCasingIsIrrelevant | src/Microsoft.Framework.CodeGenerators.Mvc/ViewGenerator.cs:75-79 | Two requests whose view names differ only in the casing of a trailing extension end alike and make the same calls. With a valid model type they also leave the same view name. |
| ViewGeneration.StripViewExtension | src/Microsoft.Framework.CodeGenerators.Mvc/ViewGenerator.cs:75-79 | If the name ends with the extension, ignoring case, the result is the name's prefix, shorter by exactly the extension's length. Otherwise the name is unchanged. |
| ViewGeneration.StripThenAppendIsOriginal | src/Microsoft.Framework.CodeGenerators.Mvc/ViewGenerator.cs:75-96 | Re-appending the extension to a stripped name gives back the original name up to case. |
| ViewGeneration.StripRemovesAnyCasing | src/Microsoft.Framework.CodeGenerators.Mvc/ViewGenerator.cs:75-79 | A name followed by the extension in any casing strips to exactly that name. |
| ViewGeneration.StripHappensOnce | src/Microsoft.Framework.CodeGenerators.Mvc/ViewGenerator.cs:75-79 | A doubled extension keeps one copy. Stripping again would remove that one too, so the step runs once and is not idempotent. |
| ViewGeneration.NameEqualToExtensionBecomesEmpty | src/Microsoft.Framework.CodeGenerators.Mvc/ViewGenerator.cs:70-79 | A view name equal to a non-empty extension, up to case, passes the null-or-empty check and is then stripped to "". |
| ViewGeneration.OutputPath | src/Microsoft.Framework.CodeGenerators.Mvc/ViewGenerator.cs:91-96 | The path has four segments: the application base, the views folder and the model's short name, then a file name made of the view name followed by the view extension. |
| ViewGeneration.OutputFileHasExtension | src/Microsoft.Framework.CodeGenerators.Mvc/ViewGenerator.cs:92-96 | The output file name ends with the view extension, ignoring case, and strips back to the view name. |
| ViewGeneration.OutputFileNameFromRequest | src/Microsoft.Framework.CodeGenerators.Mvc/ViewGenerator.cs:75-96 | If the name the caller gave already had the extension, the generated file name is that name up to case. Otherwise it is that name plus the extension. |
| ViewGeneration.TemplateFileName | src/Microsoft.Framework.CodeGenerators.Mvc/ViewGenerator.cs:106 | The template file name is the template name followed by the Razor template extension. |
| ViewGeneration.DbContextFullName | src/Microsoft.Framework.CodeGenerators.Mvc/ViewGenerator.cs:108 | The data-context name is the resolved symbol's full name when the lookup succeeded. Otherwise it is the raw `DataContextClass`, which may be null. |
| ViewGeneration.IsLayoutSelected | src/Microsoft.Framework.CodeGenerators.Mvc/ViewGenerator.cs:115-116 | False exactly when the default layout is not requested and the layout page is null or empty. |
| ViewGeneration.Host.TryValidateType | src/Microsoft.Framework.CodeGenerators.Mvc/ViewGenerator.cs:65 | Returns the validator's answer for that type name and argument name, and records one validation call. |
| ViewGeneration.Host.FileExists | src/Microsoft.Framework.CodeGenerators.Mvc/ViewGenerator.cs:98 | Returns whether the file exists and records one probe of that path. |
| ViewGeneration.Host.GetModelMetadata | src/Microsoft.Framework.CodeGenerators.Mvc/ViewGenerator.cs:111-113 | Returns the service's metadata for that data-context name and model, and records one fetch. |
| ViewGeneration.Host.AddFileFromTemplate | src/Microsoft.Framework.CodeGenerators.Mvc/ViewGenerator.cs:131 | Records one render call with exactly those arguments. |
| ViewGeneration.ViewGenerator.constructor | src/Microsoft.Framework.CodeGenerators.Mvc/ViewGenerator.cs:31-45 | The generator keeps the injected host and the environment values as given. |
| IgnoreCase.EndsWithAppended | src/Microsoft.Framework.CodeGenerators.Mvc/ViewGenerator.cs:75 | A string followed by a case variant of the suffix ends with that suffix, ignoring case. |
| IgnoreCase.CaseIsIgnored | src/Microsoft.Framework.CodeGenerators.Mvc/ViewGenerator.cs:75 | `.CSHTML` and `.cshtml` are different strings that compare equal ignoring case. |
| Scenarios.UpperCaseExtensionIsStripped | src/Microsoft.Framework.CodeGenerators.Mvc/ViewGenerator.cs:75-79 | `Index.CSHTML` strips to `Index` against the extension `.cshtml`. |
| Scenarios.NewViewIsRendered | src/Microsoft.Framework.CodeGenerators.Mvc/ViewGenerator.cs:59-133 | Case: `Index.CSHTML` with no existing file. The request ends up holding `Index`. The render goes to `/app/Views/Product/Index.cshtml` with template `List.cshtml` and no layout. The metadata is fetched with the raw, unresolved data-context name. |
| Scenarios.ExistingViewNeedsForce | src/Microsoft.Framework.CodeGenerators.Mvc/ViewGenerator.cs:98-104 | Case: the view file exists. With `force` off the run is a conflict naming the path. With `force` on the view is rendered. |
| Scenarios.WhitespaceNameReachesTemplateCheck | src/Microsoft.Framework.CodeGenerators.Mvc/ViewGenerator.cs:70-84 | A whitespace-only view name passes. The empty template name is then reported after exactly one host call. |
| Scenarios.RunNewView | src/Microsoft.Framework.CodeGenerators.Mvc/ViewGenerator.cs:59-133 | Case: the first scenario run through the classes. The request object holds `Index` afterwards, and the host has recorded five calls, the last of them the render. |

## Left out

- Case folding: `OrdinalIgnoreCase` is modelled as ASCII-only upper-casing. Non-ASCII letters are compared exactly.
- Type resolution (`ValidationUtil.TryValidateType`, `ITypeSymbol`, `FullNameForSymbol`): its code is not part of this model. It is a host function from a type name and an argument name to a symbol (short and full name) or a message. The `Contract.Assert` that a validated model is non-null holds by construction.
- `TemplateFolders` and `TemplateFoldersUtilities.GetTemplateFolders` are not part of this model. The folder list is an opaque sequence given to the generator.
- `Path.Combine` is not modelled, including its handling of rooted or separator-containing segments. The output path is kept as its four segments.
- The real values of `ViewExtension`, `ViewsFolderName` and `RazorTemplateExtension` are not part of this model. They are parameters of the generator. The scenarios use `.cshtml` and `Views` as sample values.
- The conflict message text ("View file {0} exists, use -f option to overwrite") is not built, because it depends on `Path.Combine` and culture formatting. `Conflict` carries the path.
- The completion log line (line 132) is not modelled. Its `Substring(appbasePath.Length)` depends on the `Path.Combine` result string.
- `GetModelMetadata` and `AddFileFromTemplateAsync` are shown as successful calls. Their failures, which propagate unchanged, and async scheduling are not modelled. The metadata is an opaque value passed through.
- File writing and the file-system race between the existence check and the write are not modelled. `File.Exists` is a host function of the path.
- The `[NotNull]` request argument is a non-null Dafny reference.
