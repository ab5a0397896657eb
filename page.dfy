/** app/page.tsx: the state the home page keeps for its two panels, the
    site being browsed and the history of function results, with the two
    callbacks that change it. */
module Page {
  import opened Types

  /** A site the viewer browses. */
  datatype Site = Site(name: string, url: string)

  const InitialSite := Site("Amazon", "https://www.amazon.com")

  // ---------------------------------------------------------------------
  // The state as a value, and the events that change it
  // ---------------------------------------------------------------------

  datatype State = State(currentSite: Site, functionResults: seq<FunctionResult>)

  const Initial := State(InitialSite, [])

  /** The two callbacks the page hands to its panels. */
  datatype Event = AddFunctionResult(result: FunctionResult) | ChangeSite(site: Site)

  /** The state after one callback: a result is appended to the history, a
      site replaces the current one. */
  function Step(s: State, e: Event): (t: State)
    ensures e.AddFunctionResult? ==>
      t.functionResults == s.functionResults + [e.result] && t.currentSite == s.currentSite
    ensures e.ChangeSite? ==> t.functionResults == s.functionResults && t.currentSite == e.site
  {
    match e
    case AddFunctionResult(r) => s.(functionResults := s.functionResults + [r])
    case ChangeSite(site) => s.(currentSite := site)
  }

  /** The state after a sequence of callbacks, starting from `s`. */
  function Run(s: State, events: seq<Event>): State
    decreases |events|
  {
    if events == [] then s else Run(Step(s, events[0]), events[1..])
  }

  /** The results the events add, in the order they are added. */
  function Added(events: seq<Event>): seq<FunctionResult>
    decreases |events|
  {
    if events == [] then []
    else if events[0].AddFunctionResult? then [events[0].result] + Added(events[1..])
    else Added(events[1..])
  }

  // ---------------------------------------------------------------------
  // What any sequence of callbacks does to the state
  // ---------------------------------------------------------------------

  /** The history only grows at its end: whatever callbacks run, the old
      history is kept, in value and order, and followed by exactly the
      results added, in the order they were added. */
  lemma {:induction false} HistoryAppendOnly(s: State, events: seq<Event>)
    ensures Run(s, events).functionResults == s.functionResults + Added(events)
    decreases |events|
  {
    if events != [] {
      HistoryAppendOnly(Step(s, events[0]), events[1..]);
    }
  }

  /** The site after a sequence of callbacks is the one of the last
      ChangeSite among them, or the starting one when there is none. */
  lemma {:induction false} SiteIsLastChange(s: State, events: seq<Event>)
    ensures (forall i :: 0 <= i < |events| ==> events[i].AddFunctionResult?) ==>
      Run(s, events).currentSite == s.currentSite
    ensures forall k ::
      (0 <= k < |events| && events[k].ChangeSite? &&
       (forall i :: k < i < |events| ==> events[i].AddFunctionResult?)) ==>
      Run(s, events).currentSite == events[k].site
    decreases |events|
  {
    if events != [] {
      var t := Step(s, events[0]);
      SiteIsLastChange(t, events[1..]);
      forall k | 0 <= k < |events| && events[k].ChangeSite? &&
          (forall i :: k < i < |events| ==> events[i].AddFunctionResult?)
        ensures Run(s, events).currentSite == events[k].site
      {
        if k > 0 {
          assert events[1..][k - 1] == events[k];
          forall i | k - 1 < i < |events[1..]| ensures events[1..][i].AddFunctionResult? {
            assert events[1..][i] == events[i + 1];
          }
        } else {
          forall i | 0 <= i < |events[1..]| ensures events[1..][i].AddFunctionResult? {
            assert events[1..][i] == events[i + 1];
          }
        }
      }
      if forall i :: 0 <= i < |events| ==> events[i].AddFunctionResult? {
        forall i | 0 <= i < |events[1..]| ensures events[1..][i].AddFunctionResult? {
          assert events[1..][i] == events[i + 1];
        }
      }
    }
  }

  /** From the initial state the history holds exactly the added results,
      oldest first. */
  lemma HistoryFromStart(events: seq<Event>)
    ensures Run(Initial, events).functionResults == Added(events)
  {
    HistoryAppendOnly(Initial, events);
  }

  // ---------------------------------------------------------------------
  // The page component
  // ---------------------------------------------------------------------

  class Session {
    var currentSite: Site
    var functionResults: seq<FunctionResult>

    /** The state as a value. */
    function Snapshot(): State
      reads this
    {
      State(currentSite, functionResults)
    }

    /** The page as first rendered: Amazon, and no results yet. */
    constructor ()
      ensures currentSite == Site("Amazon", "https://www.amazon.com")
      ensures functionResults == []
      ensures Snapshot() == Initial
    {
      currentSite := InitialSite;
      functionResults := [];
    }

    /** `addFunctionResult`: the result becomes the last history entry and
        nothing else changes. */
    method AddFunctionResult(result: FunctionResult)
      modifies this
      ensures functionResults == old(functionResults) + [result]
      ensures |functionResults| == |old(functionResults)| + 1
      ensures functionResults[|functionResults| - 1] == result
      ensures currentSite == old(currentSite)
      ensures Snapshot() == Step(old(Snapshot()), Event.AddFunctionResult(result))
    {
      functionResults := functionResults + [result];
    }

    /** `changeSite`: the site is replaced as a whole and the history is
        left alone. */
    method ChangeSite(site: Site)
      modifies this
      ensures currentSite == site
      ensures functionResults == old(functionResults)
      ensures Snapshot() == Step(old(Snapshot()), Event.ChangeSite(site))
    {
      currentSite := site;
    }
  }
}
