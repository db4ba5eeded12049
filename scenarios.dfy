/**
 * End-to-end runs of the generator against a host that knows a single model type
 * (`App.Models.Product`) and no data context, with `.cshtml` standing for both the view and
 * the template extension.
 */
module Scenarios {
  import opened Wrappers
  import opened IgnoreCase
  import opened ViewGeneration

  const Product := TypeSym("Product", "App.Models.Product")
  const Sample := Constants(".cshtml", "Views", ".cshtml")
  const IndexPath := ["/app", "Views", "Product", "Index.cshtml"]

  function ValidateProduct(typeName: Option<string>, argumentName: string): (check: TypeCheck)
  {
    if typeName == Some("App.Models.Product") then Valid(Product)
    else Invalid("A type with the name " + argumentName + " does not exist")
  }

  function Metadata(dbContextFullName: Option<string>, model: TypeSym): (metadata: string)
  {
    "metadata of " + model.fullName
  }

  /** The sample host, in which the view `IndexPath` exists exactly when `indexExists`. */
  function SampleEnv(indexExists: bool): (env: Environment<string>)
  {
    Environment(Services(ValidateProduct, (p: seq<string>) => indexExists && p == IndexPath, Metadata),
                Sample, "/app", ["Templates"])
  }

  /** A request for the `List` template of `Product` under the given view name. */
  function ListRequest(viewName: Option<string>, force: bool): (r: Request)
  {
    Request(Some("App.Models.Product"), viewName, Some("List"), Some("App.Data"), force, false, None, false, false)
  }

  lemma UpperCaseExtensionIsStripped()
    ensures StripViewExtension("Index.CSHTML", ".cshtml") == "Index"
  {
  }

  lemma IndexOutputPath()
    ensures OutputPath("/app", Sample, "Product", "Index") == IndexPath
  {
    assert "Index" + ".cshtml" == "Index.cshtml";
  }

  /** `Index.CSHTML` with no existing view: the request ends up holding `Index`, and the view is
      rendered to `/app/Views/Product/Index.cshtml` from `List.cshtml`, without a layout, with the
      unresolved data context passed on by its raw name. */
  lemma NewViewIsRendered()
    ensures var run := Generate(SampleEnv(false), ListRequest(Some("Index.CSHTML"), false));
            && run.viewName == Some("Index")
            && run.outcome.Render?
            && run.outcome.call.outputPath == IndexPath
            && run.outcome.call.templateName == "List.cshtml"
            && !run.outcome.call.templateModel.isLayoutPageSelected
            && run.calls[3] == MetadataFetch(Some("App.Data"), Product)
  {
    UpperCaseExtensionIsStripped();
    IndexOutputPath();
    assert TemplateFileName("List", Sample) == "List.cshtml";
  }

  /** The same request with the view already present: a conflict naming the path, and no render;
      with `force` set the view is rendered over it. */
  lemma ExistingViewNeedsForce()
    ensures Generate(SampleEnv(true), ListRequest(Some("Index"), false)).outcome == Conflict(IndexPath)
    ensures Generate(SampleEnv(true), ListRequest(Some("Index"), true)).outcome.Render?
  {
    var r := ListRequest(Some("Index"), false);
    assert !EndsWithIgnoringCase("Index", ".cshtml");
    IndexOutputPath();
    RenderedExactlyOnce(SampleEnv(true), r);
  }

  /** A whitespace-only view name passes; a missing template name is reported next, after the
      model validation alone. */
  lemma WhitespaceNameReachesTemplateCheck()
    ensures var run := Generate(SampleEnv(false), ListRequest(Some("  "), false).(templateName := Some("")));
            && run.outcome == ArgError("The TemplateName cannot be empty")
            && |run.calls| == 1
  {
  }

  /** The class-level entry point run on the first scenario: the request object is rewritten and
      the host records the five calls, the last one rendering the view. */
  method RunNewView() returns (outcome: Outcome<string>, storedName: Option<string>, calls: seq<HostCall<string>>)
    ensures storedName == Some("Index")
    ensures outcome.Render? && outcome.call.outputPath == IndexPath
    ensures |calls| == 5 && calls[4] == TemplateRender(outcome.call)
  {
    var env := SampleEnv(false);
    var host := new Host(env.services);
    var generator := new ViewGenerator(host, Sample, "/app", ["Templates"]);
    var req := new ViewGeneratorModel(ListRequest(Some("Index.CSHTML"), false));
    NewViewIsRendered();
    RenderedExactlyOnce(env, req.Value());
    outcome := generator.GenerateCode(req);
    storedName := req.viewName;
    calls := host.trace;
  }
}
