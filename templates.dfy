/** Template rendering actions (src/controllers/TemplatesController.php):
    rendering a named template, the offline page, the requirements check,
    and choosing the template and variables for an error page. */
module Templates {
  import opened Php
  import opened Http

  datatype TemplateMode = SiteMode | CpMode

  /** A value handed to a template. */
  datatype Var =
    | Plain(v: Scalar)
    | Markup(html: string)    // Template::raw(...): output without escaping
    | Object(className: string)

  /** The result of renderTemplate: which template, in which mode, with
      which variables. */
  datatype Page = Page(template: string, mode: TemplateMode, variables: map<string, Var>)

  /** The view: its current template mode and the templates that exist in
      each mode. */
  class View {
    var mode: TemplateMode
    const siteTemplates: set<string>
    const cpTemplates: set<string>

    constructor(mode: TemplateMode, siteTemplates: set<string>, cpTemplates: set<string>)
      ensures this.mode == mode
      ensures this.siteTemplates == siteTemplates && this.cpTemplates == cpTemplates
    {
      this.mode := mode;
      this.siteTemplates := siteTemplates;
      this.cpTemplates := cpTemplates;
    }

    function Available(): set<string>
      reads this
    {
      if mode == SiteMode then siteTemplates else cpTemplates
    }

    /** `doesTemplateExist` in the current mode. */
    predicate Exists(template: string)
      reads this
    {
      template in Available()
    }
  }

  // ---------------------------------------------------------------------
  // actionRender

  function Render(view: View, template: string, variables: map<string, Var>): (r: Result<Page>)
    reads view
    ensures r.Ok? <==> view.Exists(template)
    ensures r.Ok? ==> r.value == Page(template, view.mode, variables)
    ensures r.Fail? ==> r.error == NotFound("Template not found")
  {
    if view.Exists(template) then Ok(Page(template, view.mode, variables))
    else Fail(NotFound("Template not found"))
  }

  // ---------------------------------------------------------------------
  // actionOffline

  /** Renders `offline`, from the control panel's templates when a site
      request finds no site template of that name. */
  method Offline(view: View, isSiteRequest: bool) returns (page: Page)
    modifies view
    ensures view.mode == if isSiteRequest && !old(view.Exists("offline")) then CpMode else old(view.mode)
    ensures page == Page("offline", view.mode, map[])
    ensures isSiteRequest && old(view.mode) == SiteMode ==>
              (page.mode == SiteMode <==> "offline" in view.siteTemplates)
  {
    if isSiteRequest && !view.Exists("offline") {
      view.mode := CpMode;
    }
    page := Page("offline", view.mode, map[]);
  }

  // ---------------------------------------------------------------------
  // actionRequirementsCheck

  datatype Requirement = Requirement(name: string, error: bool, memo: string)

  const MessageHeader := "<br /><br />"
  const LineBreak := "<br />"
  const UpdateFailed := "The update can’t be installed :( "

  /** The memo lines of the requirements that failed, in list order. */
  function ErrorMemos(reqs: seq<Requirement>): string {
    if reqs == [] then ""
    else
      var last := reqs[|reqs| - 1];
      ErrorMemos(reqs[..|reqs| - 1]) + (if last.error then last.memo + LineBreak else "")
  }

  /** Builds the failure message with `.=` over the requirements. */
  method FailureMessage(reqs: seq<Requirement>) returns (message: string)
    ensures message == MessageHeader + ErrorMemos(reqs)
  {
    message := MessageHeader;
    for i := 0 to |reqs|
      invariant message == MessageHeader + ErrorMemos(reqs[..i])
    {
      if reqs[i].error {
        message := message + reqs[i].memo + LineBreak;
      }
      assert reqs[..i + 1][..i] == reqs[..i];
    }
    assert reqs[..|reqs|] == reqs;
  }

  /** The memo text of a concatenation is the concatenation of memo texts. */
  lemma {:induction false} ErrorMemosAppend(a: seq<Requirement>, b: seq<Requirement>)
    ensures ErrorMemos(a + b) == ErrorMemos(a) + ErrorMemos(b)
  {
    if b == [] {
      assert a + b == a;
    } else {
      var b' := b[..|b| - 1];
      ErrorMemosAppend(a, b');
      assert (a + b)[..|a + b| - 1] == a + b';
      assert (a + b)[|a + b| - 1] == b[|b| - 1];
    }
  }

  /** Every failed requirement contributes its memo and a line break at its
      place in the list; a passing one contributes nothing. */
  lemma {:induction false} ErrorMemosAt(reqs: seq<Requirement>, i: nat)
    requires i < |reqs|
    ensures ErrorMemos(reqs) ==
              ErrorMemos(reqs[..i])
              + (if reqs[i].error then reqs[i].memo + LineBreak else "")
              + ErrorMemos(reqs[i + 1..])
  {
    var front := reqs[..i + 1];
    assert reqs == front + reqs[i + 1..];
    ErrorMemosAppend(front, reqs[i + 1..]);
    assert front[..i] == reqs[..i] && front[i] == reqs[i];
    assert ErrorMemos(front) == ErrorMemos(reqs[..i]) + (if reqs[i].error then reqs[i].memo + LineBreak else "");
  }

  /** Without failed requirements the memo text is empty. */
  lemma {:induction false} ErrorMemosEmpty(reqs: seq<Requirement>)
    requires forall i :: 0 <= i < |reqs| ==> !reqs[i].error
    ensures ErrorMemos(reqs) == ""
  {
    if reqs != [] {
      ErrorMemosEmpty(reqs[..|reqs| - 1]);
    }
  }

  /** The cache, reduced to its string entries. */
  class Cache {
    var entries: map<string, string>

    constructor()
      ensures entries == map[]
    {
      entries := map[];
    }
  }

  /** With failures: a JSON request gets a server error carrying the memo
      lines, other requests get the `_special/cantrun` page. Without
      failures the base path is cached and nothing is returned. */
  method RequirementsCheck(view: View, summaryErrors: int, reqs: seq<Requirement>, acceptsJson: bool,
                           basePath: string, cache: Cache) returns (r: Result<Option<Page>>)
    modifies cache
    ensures summaryErrors > 0 ==> cache.entries == old(cache.entries)
    ensures summaryErrors > 0 && acceptsJson ==>
              r == Fail(ServerError(UpdateFailed + MessageHeader + ErrorMemos(reqs)))
    ensures summaryErrors > 0 && !acceptsJson ==>
              r == Ok(Some(Page("_special/cantrun", view.mode, map["reqCheck" := Object("RequirementsChecker")])))
    ensures summaryErrors <= 0 ==> r == Ok(None) && cache.entries == old(cache.entries)["basePath" := basePath]
  {
    if summaryErrors > 0 {
      if acceptsJson {
        var message := FailureMessage(reqs);
        assert UpdateFailed + message == UpdateFailed + MessageHeader + ErrorMemos(reqs);
        return Fail(ServerError(UpdateFailed + message));
      }
      return Ok(Some(Page("_special/cantrun", view.mode, map["reqCheck" := Object("RequirementsChecker")])));
    }
    cache.entries := cache.entries["basePath" := basePath];
    r := Ok(None);
  }

  // ---------------------------------------------------------------------
  // actionRenderError

  datatype ExceptionKind = HttpException | ErrorException | OtherException

  /** The exception being handled: its class, HTTP status code (for an
      HttpException), the standard getters, and its public properties. */
  datatype Thrown = Thrown(kind: ExceptionKind, statusCode: int, message: string, code: int,
                           file: string, line: int, publicProperties: map<string, Scalar>)

  /** The status code as a string: the exception's own when it is an
      HttpException with a non-zero code, else "500". */
  function StatusCode(e: Thrown): (code: string)
    ensures e.kind == HttpException && e.statusCode != 0 ==> ParseInt(code) == Some(e.statusCode) && CanonicalIntText(code)
    ensures !(e.kind == HttpException && e.statusCode != 0) ==> code == "500"
  {
    if e.kind == HttpException && e.statusCode != 0 then
      IntTextRoundTrip(e.statusCode);
      IntText(e.statusCode)
    else "500"
  }

  /** `$statusCode == 503`: PHP compares a numeric string with an integer by value. */
  predicate LooselyEquals(code: string, n: int) {
    ParseInt(code) == Some(n)
  }

  /** The offline template is considered exactly for HTTP 503 exceptions. */
  lemma StatusCode503(e: Thrown)
    ensures LooselyEquals(StatusCode(e), 503) <==> e.kind == HttpException && e.statusCode == 503
  {
    if !(e.kind == HttpException && e.statusCode != 0) {
      assert ParseInt("500") == Some(500) by {
        assert IntText(500) == "500";
        IntTextRoundTrip(500);
      }
    }
  }

  /** The site templates tried for an error, in order of preference. */
  function ErrorCandidates(prefix: string, code: string): seq<string> {
    [prefix + code] + (if LooselyEquals(code, 503) then [prefix + "offline"] else []) + [prefix + "error"]
  }

  /** The first candidate that exists. */
  function FirstAvailable(candidates: seq<string>, available: set<string>): (t: Option<string>)
    ensures t.Some? ==> t.value in available
    ensures t.None? <==> forall i :: 0 <= i < |candidates| ==> candidates[i] !in available
    ensures t.Some? ==> exists i :: 0 <= i < |candidates| && candidates[i] == t.value
                          && forall j :: 0 <= j < i ==> candidates[j] !in available
  {
    if candidates == [] then None
    else if candidates[0] in available then Some(candidates[0])
    else
      var rest := FirstAvailable(candidates[1..], available);
      if rest.Some? then
        var i :| 0 <= i < |candidates[1..]| && candidates[1..][i] == rest.value
                 && forall j :: 0 <= j < i ==> candidates[1..][j] !in available;
        assert candidates[i + 1] == rest.value;
        rest
      else rest
  }

  /** On a site request the status code's own template wins whenever it
      exists; `error` is used only when neither of the others applies. */
  lemma SiteErrorPreference(prefix: string, code: string, available: set<string>)
    ensures prefix + code in available ==> FirstAvailable(ErrorCandidates(prefix, code), available) == Some(prefix + code)
    ensures (prefix + code !in available && !(LooselyEquals(code, 503) && prefix + "offline" in available)
             && prefix + "error" in available)
              ==> FirstAvailable(ErrorCandidates(prefix, code), available) == Some(prefix + "error")
    ensures (LooselyEquals(code, 503) && prefix + code !in available && prefix + "offline" in available)
              ==> FirstAvailable(ErrorCandidates(prefix, code), available) == Some(prefix + "offline")
    ensures FirstAvailable(ErrorCandidates(prefix, code), available).None? <==>
              prefix + code !in available && !(LooselyEquals(code, 503) && prefix + "offline" in available)
              && prefix + "error" !in available
  {
    var c := ErrorCandidates(prefix, code);
    var t := FirstAvailable(c, available);
    if t.Some? && prefix + code !in available && !(LooselyEquals(code, 503) && prefix + "offline" in available) {
      var i :| 0 <= i < |c| && c[i] == t.value && forall j :: 0 <= j < i ==> c[j] !in available;
      assert c[i] == prefix + "error";
    }
    if LooselyEquals(code, 503) && prefix + code !in available && prefix + "offline" in available {
      var i :| 0 <= i < |c| && c[i] == t.value && forall j :: 0 <= j < i ==> c[j] !in available;
      assert c[0] == prefix + code && c[1] == prefix + "offline";
      assert i == 1;
    }
    if t.None? {
      assert c[0] == prefix + code;
      assert c[|c| - 1] == prefix + "error";
      if LooselyEquals(code, 503) {
        assert c[1] == prefix + "offline";
      }
    }
  }

  /** The variables: message, code, file and line, overridden by the
      exception's public properties; a PHP error's message is passed as
      markup when `html_errors` is on. */
  function ErrorVariables(e: Thrown, htmlErrors: bool): (vars: map<string, Var>)
    ensures vars.Keys == {"message", "code", "file", "line"} + e.publicProperties.Keys
    ensures forall k :: k in e.publicProperties && !(k == "message" && e.kind == ErrorException && htmlErrors)
              ==> vars[k] == Plain(e.publicProperties[k])
    ensures "code" !in e.publicProperties ==> vars["code"] == Plain(Int(e.code))
    ensures "file" !in e.publicProperties ==> vars["file"] == Plain(Str(e.file))
    ensures "line" !in e.publicProperties ==> vars["line"] == Plain(Int(e.line))
    ensures e.kind == ErrorException && htmlErrors ==>
              vars["message"] == Markup(if "message" in e.publicProperties then ScalarText(e.publicProperties["message"]) else e.message)
    ensures !(e.kind == ErrorException && htmlErrors) && "message" !in e.publicProperties ==>
              vars["message"] == Plain(Str(e.message))
  {
    var defaults := map["message" := Plain(Str(e.message)), "code" := Plain(Int(e.code)),
                        "file" := Plain(Str(e.file)), "line" := Plain(Int(e.line))];
    var props := map k | k in e.publicProperties :: Plain(e.publicProperties[k]);
    var merged := defaults + props;
    if e.kind == ErrorException && htmlErrors then
      merged["message" := Markup(ScalarText(merged["message"].v))]
    else merged
  }

  /** Renders the error page: the site template chosen from the status code,
      or else, in control-panel mode, the status code's template or `error`. */
  method RenderError(view: View, e: Thrown, isSiteRequest: bool, prefix: string, htmlErrors: bool)
    returns (page: Page)
    modifies view
    ensures var site := if isSiteRequest then FirstAvailable(ErrorCandidates(prefix, StatusCode(e)), old(view.Available())) else None;
            if site.Some? then page.template == site.value && view.mode == old(view.mode)
            else view.mode == CpMode
                 && page.template == (if StatusCode(e) in view.cpTemplates then StatusCode(e) else "error")
    ensures page.mode == view.mode
    ensures page.template != "error" ==> page.template in view.Available()
    ensures page.template in view.Available() || (view.mode == CpMode && page.template == "error")
    ensures page.variables == ErrorVariables(e, htmlErrors)
  {
    var statusCode := StatusCode(e);
    var template: Option<string> := None;
    if isSiteRequest {
      if view.Exists(prefix + statusCode) {
        template := Some(prefix + statusCode);
      } else if LooselyEquals(statusCode, 503) && view.Exists(prefix + "offline") {
        template := Some(prefix + "offline");
      } else if view.Exists(prefix + "error") {
        template := Some(prefix + "error");
      }
      SiteErrorPreference(prefix, statusCode, view.Available());
    }
    if template.None? {
      view.mode := CpMode;
      if view.Exists(statusCode) {
        template := Some(statusCode);
      } else {
        template := Some("error");
      }
    }
    page := Page(template.value, view.mode, ErrorVariables(e, htmlErrors));
  }
}
