/**
  The route closure POST /nginx/reload: test the configuration, then reload.
  Both commands append their lines to one output buffer, so a failed reload
  reports the test's lines followed by its own. `ReloadOutcome` is the
  specification `Reload` is proved against.
*/
module Routes {
  import opened Common
  import opened Host

  const ReloadFailed := "Failed to reload nginx"
  const Reloaded := "Nginx reloaded successfully"

  /** What the request leaves behind, for the outcomes of `nginx -t` and of the reload. */
  function ReloadOutcome(w: World, test: CmdResult, reload: CmdResult): Outcome
  {
    var tested := w.trace + [NginxTest];
    if !test.Succeeded() then Outcome(w.(trace := tested), Response(400, ErrorWithOutput(NginxTestFailed, test.output)))
    else if !reload.Succeeded() then
      Outcome(w.(trace := tested + [NginxReload]), Response(500, ErrorWithOutput(ReloadFailed, test.output + reload.output)))
    else Outcome(w.(trace := tested + [NginxReload]), Response(200, Message(Reloaded)))
  }

  method Reload(h: Host, test: CmdResult, reload: CmdResult) returns (response: Response)
    requires h.Valid()
    modifies h
    ensures Outcome(h.State(), response) == ReloadOutcome(old(h.State()), test, reload)
    ensures h.Valid()
  {
    var output: seq<string> := [];

    h.trace := h.trace + [NginxTest];
    output := output + test.output;
    assert output == test.output;
    if !test.Succeeded() {
      return Response(400, ErrorWithOutput(NginxTestFailed, output));
    }

    h.trace := h.trace + [NginxReload];
    output := output + reload.output;
    if !reload.Succeeded() {
      return Response(500, ErrorWithOutput(ReloadFailed, output));
    }
    response := Response(200, Message(Reloaded));
  }

  /**
    The reload runs only after a passing test, and nothing but the record of
    commands changes: no file, link, row or account. The answer is 200 exactly
    when both commands succeed; a failed test answers 400 with the test's
    output, a failed reload 500.
  */
  lemma ReloadOnlyAfterTest(w: World, test: CmdResult, reload: CmdResult)
    ensures var o := ReloadOutcome(w, test, reload);
            && o.world.(trace := w.trace) == w
            && o.world.trace[..|w.trace| + 1] == w.trace + [NginxTest]
            && (NginxReload in o.world.trace[|w.trace|..] <==> test.Succeeded())
            && (o.response.status == 200 <==> test.Succeeded() && reload.Succeeded())
            && (!test.Succeeded() ==> o.response == Response(400, ErrorWithOutput(NginxTestFailed, test.output)))
            && (test.Succeeded() && !reload.Succeeded() ==> o.response.status == 500)
  {
    var o := ReloadOutcome(w, test, reload);
    if test.Succeeded() {
      assert o.world.trace[|w.trace|..] == [NginxTest, NginxReload];
    } else {
      assert o.world.trace[|w.trace|..] == [NginxTest];
    }
  }

  /** A failed reload reports every line of the test, then every line of the reload. */
  lemma FailedReloadReportsBothOutputs(w: World, test: CmdResult, reload: CmdResult)
    requires test.Succeeded() && !reload.Succeeded()
    ensures var body := ReloadOutcome(w, test, reload).response.body;
            && body.ErrorWithOutput?
            && |body.output| == |test.output| + |reload.output|
            && body.output[..|test.output|] == test.output
            && body.output[|test.output|..] == reload.output
  {
  }
}
