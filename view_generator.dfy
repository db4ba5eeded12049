/**
 * The `view` scaffolding generator: it validates a view-generation request, strips a trailing
 * view-file extension from the view name (writing it back into the request), computes the output
 * path, refuses to overwrite an existing view unless forced, assembles the template model and
 * hands it to the template-rendering service.
 *
 * The host services (type validation, the file system, the Entity Framework metadata service and
 * the rendering service) are a `Host` object whose answers are fixed functions and which records
 * every call made to it, in order, in `trace`.
 */
module ViewGeneration {
  import opened Wrappers
  import opened IgnoreCase

  /** A resolved type symbol: its short name (`ITypeSymbol.Name`) and `FullNameForSymbol()`. */
  datatype TypeSym = TypeSym(name: string, fullName: string)

  /** The outcome of `ValidationUtil.TryValidateType`: the symbol, or the validator's message. */
  datatype TypeCheck = Valid(symbol: TypeSym) | Invalid(message: string)

  /** The generator's constant strings, whose values belong to the host project. */
  datatype Constants = Constants(viewExtension: string, viewsFolderName: string, razorTemplateExtension: string)

  /** The object the view template is rendered against. */
  datatype TemplateModel<M> = TemplateModel(
    viewDataTypeName: string,
    viewDataTypeShortName: string,
    viewName: string,
    layoutPageFile: Option<string>,
    isLayoutPageSelected: bool,
    isPartialView: bool,
    referenceScriptLibraries: bool,
    modelMetadata: M,
    jQueryVersion: string)

  /** The arguments of one call of `AddFileFromTemplateAsync`; the path is kept as its segments. */
  datatype RenderCall<M> = RenderCall(
    outputPath: seq<string>,
    templateName: string,
    templateFolders: seq<string>,
    templateModel: TemplateModel<M>)

  /** One call into the host, as recorded in `Host.trace`. */
  datatype HostCall<M> =
    | TypeValidation(typeName: Option<string>, argumentName: string)
    | FileProbe(path: seq<string>)
    | MetadataFetch(dbContextFullName: Option<string>, model: TypeSym)
    | TemplateRender(call: RenderCall<M>)

  /** How `GenerateCode` ends: an `ArgumentException`, an `InvalidOperationException` for an
      existing output file, or a completed render. */
  datatype Outcome<M> =
    | ArgError(message: string)
    | Conflict(path: seq<string>)
    | Render(call: RenderCall<M>)

  const ViewNameEmptyMessage := "The ViewName cannot be empty"
  const TemplateNameEmptyMessage := "The TemplateName cannot be empty"
  const JQueryVersion := "1.10.2"

  /** `string.IsNullOrEmpty`. */
  predicate IsNullOrEmpty(s: Option<string>): (b: bool)
    ensures !b <==> s.Some? && |s.value| > 0
  {
    s.None? || s.value == ""
  }

  /** The view name with one trailing copy of `ext` (compared ignoring case) removed. */
  function StripViewExtension(viewName: string, ext: string): (r: string)
    ensures EndsWithIgnoringCase(viewName, ext) ==>
              |r| == |viewName| - |ext| && viewName == r + viewName[|r|..]
    ensures !EndsWithIgnoringCase(viewName, ext) ==> r == viewName
  {
    if EndsWithIgnoringCase(viewName, ext) then viewName[..|viewName| - |ext|] else viewName
  }

  /** Re-appending the extension to a stripped name gives back the original name up to case. */
  lemma StripThenAppendIsOriginal(viewName: string, ext: string)
    requires EndsWithIgnoringCase(viewName, ext)
    ensures SameIgnoringCase(StripViewExtension(viewName, ext) + ext, viewName)
  {
  }

  /** A name followed by the extension in any casing is stripped to exactly that name. */
  lemma StripRemovesAnyCasing(name: string, e: string, ext: string)
    requires SameIgnoringCase(e, ext)
    ensures StripViewExtension(name + e, ext) == name
  {
  }

  /** Names that agree up to case either both end with the extension or neither does, and they
      strip to names that still agree up to case. */
  lemma CaseVariantsStripAlike(v1: string, v2: string, ext: string)
    requires SameIgnoringCase(v1, v2)
    ensures EndsWithIgnoringCase(v1, ext) <==> EndsWithIgnoringCase(v2, ext)
    ensures SameIgnoringCase(StripViewExtension(v1, ext), StripViewExtension(v2, ext))
  {
  }

  /** Stripping happens once: a doubled extension keeps one copy, and a second stripping
      would remove that one too, so the normalisation is not idempotent. */
  lemma StripHappensOnce(name: string, ext: string)
    ensures StripViewExtension(name + ext + ext, ext) == name + ext
    ensures StripViewExtension(StripViewExtension(name + ext + ext, ext), ext) == name
  {
  }

  /** A view name that is the extension itself passes the emptiness check and is then
      stripped to the empty name. */
  lemma NameEqualToExtensionBecomesEmpty(viewName: string, ext: string)
    requires ext != "" && SameIgnoringCase(viewName, ext)
    ensures !IsNullOrEmpty(Some(viewName))
    ensures StripViewExtension(viewName, ext) == ""
  {
  }

  /** The output path `Path.Combine(appBase, ViewsFolderName, model.Name, viewName + ViewExtension)`,
      as its four segments. */
  function OutputPath(appBase: string, c: Constants, modelName: string, viewName: string): (p: seq<string>)
    ensures |p| == 4
    ensures p[..3] == [appBase, c.viewsFolderName, modelName]
    ensures |p[3]| == |viewName| + |c.viewExtension|
    ensures p[3][..|viewName|] == viewName && p[3][|viewName|..] == c.viewExtension
  {
    [appBase, c.viewsFolderName, modelName, viewName + c.viewExtension]
  }

  /** The file name of the output path ends with the view extension, ignoring case, so it would
      itself be stripped back to the view name. */
  lemma OutputFileHasExtension(appBase: string, c: Constants, modelName: string, viewName: string)
    ensures EndsWithIgnoringCase(OutputPath(appBase, c, modelName, viewName)[3], c.viewExtension)
    ensures StripViewExtension(OutputPath(appBase, c, modelName, viewName)[3], c.viewExtension) == viewName
  {
  }

  /** The file name of the generated view, in terms of the name the caller gave: that name up to
      case when it already carried the extension, and the name with the extension otherwise. */
  lemma OutputFileNameFromRequest(appBase: string, c: Constants, modelName: string, viewName: string)
    ensures var fileName := OutputPath(appBase, c, modelName, StripViewExtension(viewName, c.viewExtension))[3];
            && (EndsWithIgnoringCase(viewName, c.viewExtension) ==> SameIgnoringCase(fileName, viewName))
            && (!EndsWithIgnoringCase(viewName, c.viewExtension) ==> fileName == viewName + c.viewExtension)
  {
  }

  /** The template file name: the template name followed by the template extension. */
  function TemplateFileName(templateName: string, c: Constants): (r: string)
    ensures |r| == |templateName| + |c.razorTemplateExtension|
    ensures r[..|templateName|] == templateName && r[|templateName|..] == c.razorTemplateExtension
  {
    templateName + c.razorTemplateExtension
  }

  /** The data-context name given to the metadata service: the resolved symbol's full name, or
      the raw `DataContextClass` string when the lookup failed. */
  function DbContextFullName(dataContext: Option<TypeSym>, dataContextClass: Option<string>): (r: Option<string>)
    ensures dataContext.Some? ==> r == Some(dataContext.value.fullName)
    ensures dataContext.None? ==> r == dataContextClass
  {
    match dataContext
    case Some(sym) => Some(sym.fullName)
    case None => dataContextClass
  }

  /** `isLayoutSelected`: false exactly when no default layout is asked for and the layout page
      is null or empty. */
  function IsLayoutSelected(useDefaultLayout: bool, layoutPage: Option<string>): (r: bool)
    ensures !r <==> !useDefaultLayout && (layoutPage == None || layoutPage == Some(""))
  {
    useDefaultLayout || (layoutPage.Some? && |layoutPage.value| > 0)
  }


  /** The request's fields, as a value (`ViewGeneratorModel`). */
  datatype Request = Request(
    modelClass: Option<string>,
    viewName: Option<string>,
    templateName: Option<string>,
    dataContextClass: Option<string>,
    force: bool,
    useDefaultLayout: bool,
    layoutPage: Option<string>,
    partialView: bool,
    referenceScriptLibraries: bool)

  /** The answers of the host services: the type validator, `File.Exists` and the metadata service. */
  datatype Services<M> = Services(
    validateType: (Option<string>, string) -> TypeCheck,
    fileExists: seq<string> -> bool,
    modelMetadata: (Option<string>, TypeSym) -> M)

  /** Everything `GenerateCode` depends on besides the request. */
  datatype Environment<M> = Environment(
    services: Services<M>,
    constants: Constants,
    applicationBasePath: string,
    templateFolders: seq<string>)

  /** What one run of `GenerateCode` does: how it ends, the view name it leaves in the request,
      and the host calls it makes, in order. */
  datatype Run<M> = Run(outcome: Outcome<M>, viewName: Option<string>, calls: seq<HostCall<M>>)

  /** The three checks that must all pass before anything beyond the model-type validation happens. */
  predicate PassesValidation<M>(env: Environment<M>, r: Request): (b: bool)
    ensures b <==> && env.services.validateType(r.modelClass, "model").Valid?
                   && r.viewName.Some? && |r.viewName.value| > 0
                   && r.templateName.Some? && |r.templateName.value| > 0
  {
    && env.services.validateType(r.modelClass, "model").Valid?
    && !IsNullOrEmpty(r.viewName)
    && !IsNullOrEmpty(r.templateName)
  }

  /** The output path of a request that passed validation. */
  function RequestOutputPath<M>(env: Environment<M>, r: Request): (path: seq<string>)
    requires PassesValidation(env, r)
  {
    var model := env.services.validateType(r.modelClass, "model").symbol;
    OutputPath(env.applicationBasePath, env.constants, model.name,
               StripViewExtension(r.viewName.value, env.constants.viewExtension))
  }

  /** The run of `GenerateCode` on request `r`. */
  function Generate<M>(env: Environment<M>, r: Request): (run: Run<M>)
    ensures |run.calls| in {1, 3, 5} && run.calls[0] == TypeValidation(r.modelClass, "model")
    ensures run.outcome.ArgError? <==> |run.calls| == 1
    ensures run.viewName.None? <==> r.viewName.None?
  {
    var modelCheck := env.services.validateType(r.modelClass, "model");
    var validated := [TypeValidation(r.modelClass, "model")];
    if modelCheck.Invalid? then
      Run(ArgError(modelCheck.message), r.viewName, validated)
    else if IsNullOrEmpty(r.viewName) then
      Run(ArgError(ViewNameEmptyMessage), r.viewName, validated)
    else
      var viewName := StripViewExtension(r.viewName.value, env.constants.viewExtension);
      if IsNullOrEmpty(r.templateName) then
        Run(ArgError(TemplateNameEmptyMessage), Some(viewName), validated)
      else
        var rest := Emitted(env, r, modelCheck.symbol, viewName);
        Run(rest.outcome, rest.viewName, validated + rest.calls)
  }

  /** The part of a run after validation, for the validated model symbol and the normalised view
      name: the data-context lookup, the file probe, and the conflict or the render. */
  function Emitted<M>(env: Environment<M>, r: Request, model: TypeSym, viewName: string): (run: Run<M>)
    requires !IsNullOrEmpty(r.templateName)
    ensures run.outcome.Conflict? || run.outcome.Render?
    ensures |run.calls| == (if run.outcome.Render? then 4 else 2)
    ensures run.viewName == Some(viewName)
  {
    var dataContextCheck := env.services.validateType(r.dataContextClass, "dataContext");
    var dataContext := if dataContextCheck.Valid? then Some(dataContextCheck.symbol) else None;
    var path := OutputPath(env.applicationBasePath, env.constants, model.name, viewName);
    var probed := [TypeValidation(r.dataContextClass, "dataContext"), FileProbe(path)];
    if env.services.fileExists(path) && !r.force then
      Run(Conflict(path), Some(viewName), probed)
    else
      var dbContextFullName := DbContextFullName(dataContext, r.dataContextClass);
      var metadata := env.services.modelMetadata(dbContextFullName, model);
      var templateModel := TemplateModel(
        model.fullName, model.name, viewName, r.layoutPage,
        IsLayoutSelected(r.useDefaultLayout, r.layoutPage), r.partialView,
        r.referenceScriptLibraries, metadata, JQueryVersion);
      var call := RenderCall(path, TemplateFileName(r.templateName.value, env.constants),
                             env.templateFolders, templateModel);
      Run(Render(call), Some(viewName), probed + [MetadataFetch(dbContextFullName, model), TemplateRender(call)])
  }

  /** A call that goes beyond type validation: a file probe, a metadata fetch or a render. */
  predicate HasSideEffectCall<M>(calls: seq<HostCall<M>>)
  {
    exists k :: 0 <= k < |calls| && !calls[k].TypeValidation?
  }

  /** The checks run in a fixed order, each with its own message: the model type (the validator's
      message), then the view name, then the template name. Each failure happens after the model
      validation alone; only the template-name failure comes after the view name was rewritten. */
  lemma ValidationOrder<M>(env: Environment<M>, r: Request)
    ensures var modelCheck := env.services.validateType(r.modelClass, "model");
            var run := Generate(env, r);
            && (modelCheck.Invalid? ==>
                  run == Run(ArgError(modelCheck.message), r.viewName, [TypeValidation(r.modelClass, "model")]))
            && (modelCheck.Valid? && IsNullOrEmpty(r.viewName) ==>
                  run == Run(ArgError("The ViewName cannot be empty"), r.viewName,
                             [TypeValidation(r.modelClass, "model")]))
            && (modelCheck.Valid? && !IsNullOrEmpty(r.viewName) && IsNullOrEmpty(r.templateName) ==>
                  run == Run(ArgError("The TemplateName cannot be empty"),
                             Some(StripViewExtension(r.viewName.value, env.constants.viewExtension)),
                             [TypeValidation(r.modelClass, "model")]))
  {
  }

  /** A run ends with an argument error exactly when validation fails, and it makes a call beyond
      type validation (a probe, a fetch, a render) exactly when validation succeeds. The data
      context lookup is never fatal. */
  lemma NothingHappensBeforeValidation<M>(env: Environment<M>, r: Request)
    ensures Generate(env, r).outcome.ArgError? <==> !PassesValidation(env, r)
    ensures HasSideEffectCall(Generate(env, r).calls) <==> PassesValidation(env, r)
  {
    var run := Generate(env, r);
    if PassesValidation(env, r) {
      assert !run.calls[2].TypeValidation?;
    }
  }

  /** A non-empty view name of the request is replaced by its stripped form, whatever the rest of
      the run does; a null or empty one is left as it was. */
  lemma ViewNameNormalised<M>(env: Environment<M>, r: Request)
    requires env.services.validateType(r.modelClass, "model").Valid?
    ensures !IsNullOrEmpty(r.viewName) ==>
              Generate(env, r).viewName == Some(StripViewExtension(r.viewName.value, env.constants.viewExtension))
    ensures IsNullOrEmpty(r.viewName) ==> Generate(env, r).viewName == r.viewName
  {
  }

  /** After validation: an existing output file without `force` is a conflict naming the path,
      decided after probing exactly that path, and neither the metadata is fetched nor the
      template rendered; otherwise the run renders. */
  lemma ConflictOnlyWithoutForce<M>(env: Environment<M>, r: Request)
    requires PassesValidation(env, r)
    ensures var path := RequestOutputPath(env, r);
            var run := Generate(env, r);
            && run.calls[..3] == [TypeValidation(r.modelClass, "model"),
                                  TypeValidation(r.dataContextClass, "dataContext"), FileProbe(path)]
            && (run.outcome.Conflict? <==> env.services.fileExists(path) && !r.force)
            && (run.outcome.Conflict? ==> run.outcome.path == path && |run.calls| == 3)
            && (!run.outcome.Conflict? ==> run.outcome.Render? && run.outcome.call.outputPath == path)
  {
  }

  /** The calls after validation: the data-context validation and the probe of the output path,
      then either nothing more (a conflict) or the metadata fetch and the render. */
  lemma EmittedCalls<M>(env: Environment<M>, r: Request, model: TypeSym, viewName: string)
    requires !IsNullOrEmpty(r.templateName)
    ensures var run := Emitted(env, r, model, viewName);
            var dataContextCheck := env.services.validateType(r.dataContextClass, "dataContext");
            var dataContext := if dataContextCheck.Valid? then Some(dataContextCheck.symbol) else None;
            && |run.calls| == (if run.outcome.Render? then 4 else 2)
            && run.calls[0] == TypeValidation(r.dataContextClass, "dataContext")
            && run.calls[1] == FileProbe(OutputPath(env.applicationBasePath, env.constants, model.name, viewName))
            && (run.outcome.Render? ==>
                  && run.calls[2] == MetadataFetch(DbContextFullName(dataContext, r.dataContextClass), model)
                  && run.calls[3] == TemplateRender(run.outcome.call))
  {
  }

  /** The template is rendered exactly once in a run that renders, as its last call and after one
      metadata fetch, and never in a run that does not. */
  lemma RenderedExactlyOnce<M>(env: Environment<M>, r: Request)
    ensures var run := Generate(env, r);
            && (forall k :: 0 <= k < |run.calls| ==>
                  (run.calls[k].TemplateRender? <==> run.outcome.Render? && k == |run.calls| - 1))
            && (run.outcome.Render? ==>
                  |run.calls| == 5 && run.calls[3].MetadataFetch? && run.calls[4] == TemplateRender(run.outcome.call))
  {
  }

  /** The render call of a successful run: the output path, the template file name, the template
      folders and a template model copied from the normalised request and the model symbol, with
      the data context's full name (or the raw name) used to fetch the metadata. */
  lemma RenderedCallContents<M>(env: Environment<M>, r: Request)
    requires Generate(env, r).outcome.Render?
    ensures PassesValidation(env, r)
    ensures var model := env.services.validateType(r.modelClass, "model").symbol;
            var dataContextCheck := env.services.validateType(r.dataContextClass, "dataContext");
            var dbName := DbContextFullName(if dataContextCheck.Valid? then Some(dataContextCheck.symbol) else None,
                                            r.dataContextClass);
            var call := Generate(env, r).outcome.call;
            var t := call.templateModel;
            && call.outputPath == RequestOutputPath(env, r)
            && call.templateName == r.templateName.value + env.constants.razorTemplateExtension
            && call.templateFolders == env.templateFolders
            && Some(t.viewName) == Generate(env, r).viewName
            && t.viewDataTypeName == model.fullName && t.viewDataTypeShortName == model.name
            && t.layoutPageFile == r.layoutPage && t.isPartialView == r.partialView
            && t.referenceScriptLibraries == r.referenceScriptLibraries
            && t.isLayoutPageSelected == (r.useDefaultLayout || !IsNullOrEmpty(r.layoutPage))
            && Generate(env, r).calls[3] == MetadataFetch(dbName, model)
            && t.modelMetadata == env.services.modelMetadata(dbName, model)
            && t.jQueryVersion == "1.10.2"
  {
  }

  /** The casing of a trailing view extension does not matter: two requests whose view names
      differ only in it end alike and make the same calls, and a valid model type leaves the same
      view name in both. */
  lemma ExtensionCasingIsIrrelevant<M>(env: Environment<M>, r: Request, name: string, e1: string, e2: string)
    requires SameIgnoringCase(e1, env.constants.viewExtension) && SameIgnoringCase(e2, env.constants.viewExtension)
    requires r.viewName == Some(name + e1)
    ensures var run1, run2 := Generate(env, r), Generate(env, r.(viewName := Some(name + e2)));
            && run1.outcome == run2.outcome && run1.calls == run2.calls
            && (env.services.validateType(r.modelClass, "model").Valid? ==> run1.viewName == run2.viewName)
  {
    StripRemovesAnyCasing(name, e1, env.constants.viewExtension);
    StripRemovesAnyCasing(name, e2, env.constants.viewExtension);
  }

  /** The request object bound from the command line (`ViewGeneratorModel`). */
  class ViewGeneratorModel {
    var modelClass: Option<string>
    var viewName: Option<string>
    var templateName: Option<string>
    var dataContextClass: Option<string>
    var force: bool
    var useDefaultLayout: bool
    var layoutPage: Option<string>
    var partialView: bool
    var referenceScriptLibraries: bool

    constructor (r: Request)
      ensures Value() == r
    {
      modelClass := r.modelClass;
      viewName := r.viewName;
      templateName := r.templateName;
      dataContextClass := r.dataContextClass;
      force := r.force;
      useDefaultLayout := r.useDefaultLayout;
      layoutPage := r.layoutPage;
      partialView := r.partialView;
      referenceScriptLibraries := r.referenceScriptLibraries;
    }

    /** The current field values. */
    function Value(): (r: Request)
      reads this
    {
      Request(modelClass, viewName, templateName, dataContextClass, force, useDefaultLayout,
              layoutPage, partialView, referenceScriptLibraries)
    }
  }

  /** The host services. Their answers are `services`; every call is appended to `trace`. */
  class Host<M> {
    const services: Services<M>
    var trace: seq<HostCall<M>>

    constructor (services: Services<M>)
      ensures this.services == services && trace == []
    {
      this.services := services;
      trace := [];
    }

    /** `ValidationUtil.TryValidateType(typeName, argumentName, locator, out symbol, out message)`. */
    method TryValidateType(typeName: Option<string>, argumentName: string) returns (r: TypeCheck)
      modifies this`trace
      ensures r == services.validateType(typeName, argumentName)
      ensures trace == old(trace) + [TypeValidation(typeName, argumentName)]
    {
      r := services.validateType(typeName, argumentName);
      trace := trace + [TypeValidation(typeName, argumentName)];
    }

    /** `File.Exists(path)`. */
    method FileExists(path: seq<string>) returns (b: bool)
      modifies this`trace
      ensures b == services.fileExists(path)
      ensures trace == old(trace) + [FileProbe(path)]
    {
      b := services.fileExists(path);
      trace := trace + [FileProbe(path)];
    }

    /** `IEntityFrameworkService.GetModelMetadata(dbContextFullName, model)`. */
    method GetModelMetadata(dbContextFullName: Option<string>, model: TypeSym) returns (m: M)
      modifies this`trace
      ensures m == services.modelMetadata(dbContextFullName, model)
      ensures trace == old(trace) + [MetadataFetch(dbContextFullName, model)]
    {
      m := services.modelMetadata(dbContextFullName, model);
      trace := trace + [MetadataFetch(dbContextFullName, model)];
    }

    /** `ICodeGeneratorActionsService.AddFileFromTemplateAsync(outputPath, templateName, folders, model)`. */
    method AddFileFromTemplate(call: RenderCall<M>)
      modifies this`trace
      ensures trace == old(trace) + [TemplateRender(call)]
    {
      trace := trace + [TemplateRender(call)];
    }
  }

  class ViewGenerator<M> {
    const host: Host<M>
    const constants: Constants
    const applicationBasePath: string
    /** The template search folders (the `TemplateFolders` property), taken as given. */
    const templateFolders: seq<string>

    constructor (host: Host<M>, constants: Constants, applicationBasePath: string, templateFolders: seq<string>)
      ensures this.host == host && this.constants == constants
      ensures this.applicationBasePath == applicationBasePath && this.templateFolders == templateFolders
    {
      this.host := host;
      this.constants := constants;
      this.applicationBasePath := applicationBasePath;
      this.templateFolders := templateFolders;
    }

    /** The services and values `GenerateCode` runs against. */
    function Env(): (env: Environment<M>)
    {
      Environment(host.services, constants, applicationBasePath, templateFolders)
    }

    /** Validates `req`, normalises its view name in place and, unless the view exists and
        `force` is off, renders the view template through the host: the run `Generate` describes. */
    method GenerateCode(req: ViewGeneratorModel) returns (outcome: Outcome<M>)
      modifies req`viewName, host`trace
      ensures var run := Generate(Env(), old(req.Value()));
              && outcome == run.outcome
              && req.viewName == run.viewName
              && host.trace == old(host.trace) + run.calls
    {
      ghost var run := Generate(Env(), req.Value());
      ghost var validated: seq<HostCall<M>> := [TypeValidation(req.modelClass, "model")];
      var modelCheck := host.TryValidateType(req.modelClass, "model");
      if modelCheck.Invalid? {
        assert run == Run(ArgError(modelCheck.message), req.viewName, validated);
        return ArgError(modelCheck.message);
      }
      var model := modelCheck.symbol;

      if IsNullOrEmpty(req.viewName) {
        assert run == Run(ArgError(ViewNameEmptyMessage), req.viewName, validated);
        return ArgError(ViewNameEmptyMessage);
      }

      ghost var r := req.Value();
      req.viewName := Some(StripViewExtension(req.viewName.value, constants.viewExtension));

      if IsNullOrEmpty(req.templateName) {
        assert run == Run(ArgError(TemplateNameEmptyMessage), req.viewName, validated);
        return ArgError(TemplateNameEmptyMessage);
      }

      ghost var rest := Emitted(Env(), r, model, req.viewName.value);
      assert run == Run(rest.outcome, req.viewName, validated + rest.calls);
      assert Emitted(Env(), req.Value(), model, req.viewName.value) == rest;
      outcome := EmitView(req, model);
    }

    /** The steps after validation, against the normalised request: the data-context lookup, the
        output path and its probe, and the conflict or the metadata fetch and the render. */
    method EmitView(req: ViewGeneratorModel, model: TypeSym) returns (outcome: Outcome<M>)
      requires req.viewName.Some? && !IsNullOrEmpty(req.templateName)
      modifies host`trace
      ensures var run := Emitted(Env(), req.Value(), model, req.viewName.value);
              && outcome == run.outcome
              && host.trace == old(host.trace) + run.calls
    {
      var dataContextCheck := host.TryValidateType(req.dataContextClass, "dataContext");
      var dataContext := if dataContextCheck.Valid? then Some(dataContextCheck.symbol) else None;

      var outputPath := OutputPath(applicationBasePath, constants, model.name, req.viewName.value);
      var fileExists := host.FileExists(outputPath);
      if fileExists && !req.force {
        return Conflict(outputPath);
      }

      var templateName := TemplateFileName(req.templateName.value, constants);
      var dbContextFullName := DbContextFullName(dataContext, req.dataContextClass);
      var modelMetadata := host.GetModelMetadata(dbContextFullName, model);

      var templateModel := TemplateModel(
        model.fullName, model.name, req.viewName.value, req.layoutPage,
        IsLayoutSelected(req.useDefaultLayout, req.layoutPage), req.partialView,
        req.referenceScriptLibraries, modelMetadata, JQueryVersion);
      var call := RenderCall(outputPath, templateName, templateFolders, templateModel);
      host.AddFileFromTemplate(call);
      outcome := Render(call);
    }
  }
}
