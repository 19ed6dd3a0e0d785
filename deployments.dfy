/** Loading the deployment list (apps/web/src/lib/environment/deployments.ts).
    The environment variable and JSON.parse are parameters; `parse` gives
    None where JSON.parse throws. The list is returned unchanged; scanning it
    only emits warnings, which are the scan's second result (its third is the
    final value of its `defaultExists` flag). */
module Deployments {
  import opened Js

  datatype Deployment = Deployment(id: string, isDefault: bool, defaultGraphId: Option<string>)

  datatype Warning = MissingGraphIdOnServer | MissingGraphIdInBrowser | MultipleDefaults

  function Message(w: Warning): string {
    match w
    case MissingGraphIdOnServer => "Default deployment missing defaultGraphId; proceeding without throwing in build/runtime."
    case MissingGraphIdInBrowser => "Default deployment missing defaultGraphId; proceeding without default."
    case MultipleDefaults => "Multiple default deployments found; using the first one."
  }

  /** The text handed to JSON.parse: the variable, or "[]" when it is missing or empty. */
  function SourceText(env: Option<string>): (text: string)
    ensures !Truthy(env) ==> text == "[]"
    ensures Truthy(env) ==> text == env.value
  {
    Or(env, "[]")
  }

  /** The missing-graph warning; its wording depends only on whether `window` exists. */
  function MissingGraphWarning(windowDefined: bool): (w: Warning)
    ensures w != MultipleDefaults
    ensures w == MissingGraphIdInBrowser <==> windowDefined
  {
    if windowDefined then MissingGraphIdInBrowser else MissingGraphIdOnServer
  }

  function CountDefaults(ds: seq<Deployment>): nat {
    if ds == [] then 0 else CountDefaults(ds[..|ds| - 1]) + (if ds[|ds| - 1].isDefault then 1 else 0)
  }

  function FirstDefault(ds: seq<Deployment>): (r: Option<Deployment>)
    ensures r.Some? <==> CountDefaults(ds) > 0
    ensures r.Some? ==> r.value.isDefault
  {
    if ds == [] then None
    else if FirstDefault(ds[..|ds| - 1]).Some? then FirstDefault(ds[..|ds| - 1])
    else if ds[|ds| - 1].isDefault then Some(ds[|ds| - 1])
    else None
  }

  function Repeat(w: Warning, n: nat): (ws: seq<Warning>)
    ensures |ws| == n && forall i :: 0 <= i < n ==> ws[i] == w
  {
    if n == 0 then [] else Repeat(w, n - 1) + [w]
  }

  /** The warnings the scan must emit, in order: the first default deployment
      is checked for a graph, and every later default is one more warning. */
  function ExpectedWarnings(ds: seq<Deployment>, windowDefined: bool): seq<Warning> {
    (if FirstDefault(ds).Some? && !Truthy(FirstDefault(ds).value.defaultGraphId)
     then [MissingGraphWarning(windowDefined)] else [])
    + Repeat(MultipleDefaults, if CountDefaults(ds) > 0 then CountDefaults(ds) - 1 else 0)
  }

  /** The loop of getDeployments over an already parsed list. */
  method ScanDeployments(deployments: seq<Deployment>, windowDefined: bool)
    returns (result: seq<Deployment>, warnings: seq<Warning>, defaultExists: bool)
    ensures result == deployments
    ensures warnings == ExpectedWarnings(deployments, windowDefined)
    // the flag's final value: whether some deployment is marked default
    ensures defaultExists <==> exists i :: 0 <= i < |deployments| && deployments[i].isDefault
  {
    defaultExists := false;
    warnings := [];
    for i := 0 to |deployments|
      // set by the first default and never reset
      invariant defaultExists <==> CountDefaults(deployments[..i]) > 0
      invariant warnings == ExpectedWarnings(deployments[..i], windowDefined)
    {
      var deployment := deployments[i];
      assert deployments[..i + 1][..i] == deployments[..i];
      if deployment.isDefault && !defaultExists {
        if !Truthy(deployment.defaultGraphId) {
          if !windowDefined {
            warnings := warnings + [MissingGraphIdOnServer];
          } else {
            warnings := warnings + [MissingGraphIdInBrowser];
          }
        }
        defaultExists := true;
      } else if deployment.isDefault && defaultExists {
        warnings := warnings + [MultipleDefaults];
      }
    }
    assert deployments[..|deployments|] == deployments;
    SomeDefaultIffCount(deployments);
    result := deployments;
  }

  /** getDeployments: the list JSON.parse gives for the variable (None where
      it throws, which getDeployments does not catch), and the warnings. */
  method GetDeployments(env: Option<string>, parse: string -> Option<seq<Deployment>>, windowDefined: bool)
    returns (result: Option<seq<Deployment>>, warnings: seq<Warning>)
    ensures result == parse(SourceText(env))
    ensures result.Some? ==> warnings == ExpectedWarnings(result.value, windowDefined)
    ensures result.None? ==> warnings == []
  {
    var parsed := parse(SourceText(env));
    if parsed.None? {
      return None, [];
    }
    var deployments, someDefault;
    deployments, warnings, someDefault := ScanDeployments(parsed.value, windowDefined);
    result := Some(deployments);
  }

  function Occurrences(ws: seq<Warning>, w: Warning): nat {
    if ws == [] then 0 else Occurrences(ws[..|ws| - 1], w) + (if ws[|ws| - 1] == w then 1 else 0)
  }

  lemma {:induction false} OccurrencesAppend(a: seq<Warning>, b: seq<Warning>, w: Warning)
    ensures Occurrences(a + b, w) == Occurrences(a, w) + Occurrences(b, w)
    decreases |b|
  {
    if b != [] {
      assert (a + b)[..|a + b| - 1] == a + b[..|b| - 1];
      OccurrencesAppend(a, b[..|b| - 1], w);
    } else {
      assert a + b == a;
    }
  }

  lemma {:induction false} OccurrencesRepeat(w: Warning, n: nat, x: Warning)
    ensures Occurrences(Repeat(w, n), x) == if w == x then n else 0
  {
    if n > 0 {
      assert Repeat(w, n)[..n - 1] == Repeat(w, n - 1);
      OccurrencesRepeat(w, n - 1, x);
    }
  }

  /** The scan emits max(0, defaults - 1) "multiple defaults" warnings, and
      at most one missing-graph warning, emitted exactly when the first
      default deployment has no graph id. */
  lemma WarningCounts(ds: seq<Deployment>, windowDefined: bool)
    ensures Occurrences(ExpectedWarnings(ds, windowDefined), MultipleDefaults)
         == if CountDefaults(ds) > 0 then CountDefaults(ds) - 1 else 0
    ensures var missing := Occurrences(ExpectedWarnings(ds, windowDefined), MissingGraphWarning(windowDefined));
            && missing <= 1
            && (missing == 1 <==> FirstDefault(ds).Some? && !Truthy(FirstDefault(ds).value.defaultGraphId))
    ensures Occurrences(ExpectedWarnings(ds, windowDefined), MissingGraphWarning(!windowDefined)) == 0
  {
    var head: seq<Warning> :=
      if FirstDefault(ds).Some? && !Truthy(FirstDefault(ds).value.defaultGraphId)
      then [MissingGraphWarning(windowDefined)] else [];
    var n := if CountDefaults(ds) > 0 then CountDefaults(ds) - 1 else 0;
    assert ExpectedWarnings(ds, windowDefined) == head + Repeat(MultipleDefaults, n);
    if head != [] { assert head[..0] == []; }
    OccurrencesAppend(head, Repeat(MultipleDefaults, n), MultipleDefaults);
    OccurrencesRepeat(MultipleDefaults, n, MultipleDefaults);
    OccurrencesAppend(head, Repeat(MultipleDefaults, n), MissingGraphWarning(windowDefined));
    OccurrencesRepeat(MultipleDefaults, n, MissingGraphWarning(windowDefined));
    OccurrencesAppend(head, Repeat(MultipleDefaults, n), MissingGraphWarning(!windowDefined));
    OccurrencesRepeat(MultipleDefaults, n, MissingGraphWarning(!windowDefined));
  }

  /** At the end of the loop the flag says whether some deployment is a default. */
  lemma {:induction false} SomeDefaultIffCount(ds: seq<Deployment>)
    ensures CountDefaults(ds) > 0 <==> exists i :: 0 <= i < |ds| && ds[i].isDefault
  {
    if ds != [] {
      var init := ds[..|ds| - 1];
      SomeDefaultIffCount(init);
      if CountDefaults(init) > 0 {
        var i :| 0 <= i < |init| && init[i].isDefault;
        assert ds[i] == init[i];
      }
      if exists i :: 0 <= i < |ds| && ds[i].isDefault {
        var i :| 0 <= i < |ds| && ds[i].isDefault;
        if i < |init| { assert init[i] == ds[i]; }
      }
    }
  }

  /** The first default deployment is the earliest one marked default. */
  lemma {:induction false} FirstDefaultIsEarliest(ds: seq<Deployment>)
    requires FirstDefault(ds).Some?
    ensures exists i :: 0 <= i < |ds| && ds[i] == FirstDefault(ds).value
                        && forall j :: 0 <= j < i ==> !ds[j].isDefault
  {
    var init := ds[..|ds| - 1];
    if FirstDefault(init).Some? {
      FirstDefaultIsEarliest(init);
      var i :| 0 <= i < |init| && init[i] == FirstDefault(init).value
               && forall j :: 0 <= j < i ==> !init[j].isDefault;
      assert ds[i] == init[i];
      forall j | 0 <= j < i ensures !ds[j].isDefault { assert ds[j] == init[j]; }
    } else {
      SomeDefaultIffCount(init);
      forall j | 0 <= j < |ds| - 1 ensures !ds[j].isDefault { assert ds[j] == init[j]; }
    }
  }

  /** A missing or empty variable gives the empty list and no warning. */
  lemma MissingVariableGivesEmptyList(env: Option<string>, windowDefined: bool)
    requires !Truthy(env)
    ensures SourceText(env) == "[]"
    ensures ExpectedWarnings([], windowDefined) == []
  {
  }
}
