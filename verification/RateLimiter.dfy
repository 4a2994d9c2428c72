/** The in-memory sliding-window rate limiter, and the full history it stands for. */
module RateLimiter {

  /** A request as the limiter sees it, at the time its clock shows. */
  datatype Request = Request(key: string, now: real, limit: int, window: int) {
    function Cutoff(): real {
      now - window as real
    }
  }

  datatype Answer = Answer(allowed: bool, remaining: int)

  type Windows = map<string, seq<real>>

  // ----- One request

  /** The times later than the cutoff, in order. */
  function Above(times: seq<real>, cutoff: real): (r: seq<real>)
    ensures |r| <= |times|
  {
    if times == [] then []
    else
      var front, last := times[..|times| - 1], times[|times| - 1];
      if last > cutoff then Above(front, cutoff) + [last] else Above(front, cutoff)
  }

  /** The list kept for a key; none at all reads as an empty one. */
  function Kept(windows: Windows, key: string): seq<real> {
    if key in windows then windows[key] else []
  }

  function NonEmpty(windows: Windows): Windows {
    map k | k in windows && windows[k] != [] :: windows[k]
  }

  /** What a limiter that counts these times answers. */
  function AnswerFor(times: seq<real>, r: Request): Answer {
    var count := |Above(times, r.Cutoff())|;
    if count >= r.limit then Answer(false, 0) else Answer(true, r.limit - count - 1)
  }

  /** The lists after a request: its key's pruned and extended, empty ones of other keys gone. */
  function Served(windows: Windows, r: Request): Windows {
    var pruned := Above(Kept(windows, r.key), r.Cutoff());
    var others := NonEmpty(windows[r.key := pruned]);
    others[r.key := if AnswerFor(Kept(windows, r.key), r).allowed then pruned + [r.now] else pruned]
  }

  class InMemoryRateLimiter {
    var windows: Windows

    constructor ()
      ensures windows == map[]
    {
      windows := map[];
    }

    /** Prune the key's list, drop keys left with nothing, then count and record. */
    method IsAllowed(r: Request) returns (allowed: bool, remaining: int)
      modifies this
      ensures Answer(allowed, remaining) == AnswerFor(Kept(old(windows), r.key), r)
      ensures windows == Served(old(windows), r)
    {
      hide Above;
      var pruned := Prune(Kept(windows, r.key), r.Cutoff());
      windows := windows[r.key := pruned];
      DropStale();
      var count := |Kept(windows, r.key)|;
      windows := windows[r.key := Kept(windows, r.key)];
      if count >= r.limit {
        return false, 0;
      }
      windows := windows[r.key := windows[r.key] + [r.now]];
      return true, r.limit - count - 1;
    }

    method DropStale()
      modifies this
      ensures windows == NonEmpty(old(windows))
    {
      var stale := set k | k in windows && windows[k] == [];
      while stale != {}
        invariant forall k :: k in windows <==> k in old(windows) && (old(windows)[k] != [] || k in stale)
        invariant forall k | k in windows :: windows[k] == old(windows)[k]
        invariant forall k | k in stale :: k in old(windows) && old(windows)[k] == []
        decreases |stale|
      {
        var key :| key in stale;
        windows := windows - {key};
        stale := stale - {key};
      }
    }
  }

  method Prune(times: seq<real>, cutoff: real) returns (kept: seq<real>)
    ensures kept == Above(times, cutoff)
  {
    kept := [];
    assert times[..0] == [];
    for i := 0 to |times|
      invariant kept == Above(times[..i], cutoff)
    {
      assert times[..i + 1][..i] == times[..i];
      if times[i] > cutoff {
        kept := kept + [times[i]];
      }
    }
    assert times[..|times|] == times;
  }

  // ----- Runs of requests

  /** The lists after a run of requests. */
  function After(requests: seq<Request>): Windows {
    if requests == [] then map[] else Served(After(requests[..|requests| - 1]), requests[|requests| - 1])
  }

  /** The answer to the last request of a run. */
  function LastAnswer(requests: seq<Request>): Answer
    requires requests != []
  {
    var last := requests[|requests| - 1];
    AnswerFor(Kept(After(requests[..|requests| - 1]), last.key), last)
  }

  /** The full history: the times of every allowed request on a key. */
  function AllowedTimes(requests: seq<Request>, key: string): seq<real> {
    if requests == [] then []
    else
      var front, last := requests[..|requests| - 1], requests[|requests| - 1];
      if last.key == key && LastAnswer(requests).allowed then AllowedTimes(front, key) + [last.now]
      else AllowedTimes(front, key)
  }

  /** On each key no request looks further back than an earlier one: so with time moving on and fixed windows. */
  ghost predicate CutoffsRise(requests: seq<Request>) {
    forall i, j | 0 <= i < j < |requests| && requests[i].key == requests[j].key ::
      requests[i].Cutoff() <= requests[j].Cutoff()
  }

  // ----- Pruning loses nothing

  lemma {:induction false} AboveAbove(times: seq<real>, c: real, d: real)
    requires c <= d
    ensures Above(Above(times, c), d) == Above(times, d)
  {
    if times != [] {
      var front, last := times[..|times| - 1], times[|times| - 1];
      AboveAbove(front, c, d);
      if last > c {
        AboveSnoc(Above(front, c), last, d);
      }
    }
  }

  lemma AboveSnoc(times: seq<real>, t: real, c: real)
    ensures Above(times + [t], c) == if t > c then Above(times, c) + [t] else Above(times, c)
  {
    assert (times + [t])[..|times|] == times;
  }

  /** What serving a request leaves for a key. */
  lemma ServedKept(windows: Windows, r: Request, key: string)
    ensures Kept(Served(windows, r), key)
         == if key != r.key then Kept(windows, key)
            else if AnswerFor(Kept(windows, key), r).allowed then Above(Kept(windows, key), r.Cutoff()) + [r.now]
            else Above(Kept(windows, key), r.Cutoff())
  {
    hide Above, AnswerFor;
  }

  /** The cutoff of the last request on a key, or any cutoff at all if there was none. */
  ghost predicate LooksBackTo(requests: seq<Request>, key: string, c: real) {
    forall i | 0 <= i < |requests| && requests[i].key == key :: requests[i].Cutoff() <= c
  }

  lemma {:induction false} PruningIsLossless(requests: seq<Request>, key: string, c: real)
    requires CutoffsRise(requests) && LooksBackTo(requests, key, c)
    ensures Above(Kept(After(requests), key), c) == Above(AllowedTimes(requests, key), c)
  {
    hide Above, AnswerFor, Served;
    if requests != [] {
      var front, r := requests[..|requests| - 1], requests[|requests| - 1];
      assert CutoffsRise(front);
      PruningIsLossless(front, key, c);
      ServedKept(After(front), r, key);
      if key == r.key {
        var kept := Kept(After(front), key);
        assert r.Cutoff() <= c;
        AboveAbove(kept, r.Cutoff(), c);
        AboveSnoc(Above(kept, r.Cutoff()), r.now, c);
        AboveSnoc(AllowedTimes(front, key), r.now, c);
      }
    }
  }

  /**
   * The pruned lists answer exactly as the full history would: a request is refused if and only if `limit`
   * requests on its key were already allowed within the last window, and otherwise told how many are left.
   */
  lemma AnswersAsFullHistory(requests: seq<Request>)
    requires requests != [] && CutoffsRise(requests)
    ensures
      var last := requests[|requests| - 1];
      LastAnswer(requests) == AnswerFor(AllowedTimes(requests[..|requests| - 1], last.key), last)
  {
    hide Above, After;
    var front, last := requests[..|requests| - 1], requests[|requests| - 1];
    assert CutoffsRise(front);
    PruningIsLossless(front, last.key, last.Cutoff());
  }

  // ----- Said without the limiter's own functions

  /** Which of the times lie within the window that ends at the request. */
  function Recent(times: seq<real>, r: Request): set<int> {
    set i | 0 <= i < |times| && times[i] > r.now - r.window as real
  }

  lemma {:induction false} AboveCounts(times: seq<real>, r: Request)
    ensures |Above(times, r.Cutoff())| == |Recent(times, r)|
  {
    if times == [] {
      assert Recent(times, r) == {};
    } else {
      var front, last := times[..|times| - 1], times[|times| - 1];
      AboveCounts(front, r);
      assert Recent(times, r) == if last > r.Cutoff() then Recent(front, r) + {|front|} else Recent(front, r);
    }
  }

  /**
   * Exactly when a request is allowed: if and only if fewer than `limit` of the requests allowed on its key
   * before lie within its window. It is then told how many more would be, and enters the key's history; a
   * refused request leaves no mark, and no request touches the history of another key.
   */
  lemma AllowedIff(requests: seq<Request>, key: string)
    requires requests != [] && CutoffsRise(requests)
    ensures
      var front, r := requests[..|requests| - 1], requests[|requests| - 1];
      var earlier := AllowedTimes(front, r.key);
      var recent := |set i | 0 <= i < |earlier| && earlier[i] > r.now - r.window as real|;
      && (LastAnswer(requests).allowed <==> recent < r.limit)
      && LastAnswer(requests).remaining == (if recent < r.limit then r.limit - recent - 1 else 0)
      && AllowedTimes(requests, r.key) == (if recent < r.limit then earlier + [r.now] else earlier)
      && (key != r.key ==> AllowedTimes(requests, key) == AllowedTimes(front, key))
  {
    hide Above, After, CutoffsRise;
    var front, r := requests[..|requests| - 1], requests[|requests| - 1];
    AnswersAsFullHistory(requests);
    AboveCounts(AllowedTimes(front, r.key), r);
  }

  /** No list is kept for nothing: only the key asked about last can have an empty one. */
  lemma {:induction false} NoStaleKeys(requests: seq<Request>, key: string)
    requires key in After(requests) && After(requests)[key] == []
    ensures requests != [] && key == requests[|requests| - 1].key
  {
    hide Above, AnswerFor;
  }

  // ----- The sliding window

  ghost predicate TimesRise(requests: seq<Request>) {
    forall i, j | 0 <= i < j < |requests| :: requests[i].now <= requests[j].now
  }

  /** Time moves on, and the key has one limit and one window. */
  ghost predicate Steady(requests: seq<Request>, key: string, limit: int, window: int) {
    && TimesRise(requests)
    && (forall i | 0 <= i < |requests| && requests[i].key == key ::
          requests[i].limit == limit && requests[i].window == window)
  }

  /** Either half-open interval of one window's length: [from, from + window) or (from, from + window]. */
  predicate InInterval(t: real, from: real, window: int, closedLeft: bool) {
    if closedLeft then from <= t < from + window as real else from < t <= from + window as real
  }

  function Within(times: seq<real>, from: real, window: int, closedLeft: bool): (n: nat) {
    if times == [] then 0
    else Within(times[..|times| - 1], from, window, closedLeft)
         + if InInterval(times[|times| - 1], from, window, closedLeft) then 1 else 0
  }

  /** Whatever shares an interval with `now` is later than the cutoff at `now`. */
  lemma {:induction false} WithinIsAbove(times: seq<real>, from: real, window: int, closedLeft: bool, now: real)
    requires InInterval(now, from, window, closedLeft)
    ensures Within(times, from, window, closedLeft) <= |Above(times, now - window as real)|
  {
    if times != [] {
      WithinIsAbove(times[..|times| - 1], from, window, closedLeft, now);
    }
  }

  lemma WithinSnoc(times: seq<real>, t: real, from: real, window: int, closedLeft: bool)
    ensures Within(times + [t], from, window, closedLeft)
         == Within(times, from, window, closedLeft) + if InInterval(t, from, window, closedLeft) then 1 else 0
  {
    assert (times + [t])[..|times|] == times;
  }

  /** The answers on one key depend on the requests on that key alone, so each key can be looked at on its own. */
  function OnKey(requests: seq<Request>, key: string): seq<Request> {
    if requests == [] then []
    else
      var front, last := requests[..|requests| - 1], requests[|requests| - 1];
      if last.key == key then OnKey(front, key) + [last] else OnKey(front, key)
  }

  lemma {:induction false} KeysDoNotInterfere(requests: seq<Request>, key: string)
    ensures AllowedTimes(OnKey(requests, key), key) == AllowedTimes(requests, key)
    ensures Kept(After(OnKey(requests, key)), key) == Kept(After(requests), key)
  {
    hide Above, AnswerFor, Served;
    if requests != [] {
      var front, r := requests[..|requests| - 1], requests[|requests| - 1];
      KeysDoNotInterfere(front, key);
      ServedKept(After(front), r, key);
      if r.key == key {
        var own := OnKey(front, key) + [r];
        assert own[..|own| - 1] == OnKey(front, key);
        ServedKept(After(OnKey(front, key)), r, key);
      }
    }
  }

  lemma SteadyCutoffsRise(requests: seq<Request>, key: string, limit: int, window: int)
    requires Steady(requests, key, limit, window)
    requires forall i | 0 <= i < |requests| :: requests[i].key == key
    ensures CutoffsRise(requests)
  {
  }

  lemma {:induction false} OnKeyMembers(requests: seq<Request>, key: string, x: Request)
    ensures x in OnKey(requests, key) <==> x in requests && x.key == key
  {
    if requests != [] {
      OnKeyMembers(requests[..|requests| - 1], key, x);
      assert requests == requests[..|requests| - 1] + [requests[|requests| - 1]];
    }
  }

  lemma {:induction false} OnKeyTimesRise(requests: seq<Request>, key: string)
    requires TimesRise(requests)
    ensures TimesRise(OnKey(requests, key))
  {
    if requests != [] {
      var front, last := requests[..|requests| - 1], requests[|requests| - 1];
      OnKeyTimesRise(front, key);
      forall i | 0 <= i < |OnKey(front, key)| ensures OnKey(front, key)[i].now <= last.now {
        OnKeyMembers(front, key, OnKey(front, key)[i]);
      }
    }
  }

  lemma OnKeySteady(requests: seq<Request>, key: string, limit: int, window: int)
    requires Steady(requests, key, limit, window)
    ensures Steady(OnKey(requests, key), key, limit, window)
    ensures forall i | 0 <= i < |OnKey(requests, key)| :: OnKey(requests, key)[i].key == key
  {
    hide TimesRise;
    OnKeyTimesRise(requests, key);
    forall i | 0 <= i < |OnKey(requests, key)|
      ensures
        var r := OnKey(requests, key)[i];
        r.key == key && r.limit == limit && r.window == window
    {
      OnKeyMembers(requests, key, OnKey(requests, key)[i]);
    }
  }

  lemma {:induction false} WindowHoldsAlone(requests: seq<Request>, key: string, limit: int, window: int,
                                            from: real, closedLeft: bool)
    requires Steady(requests, key, limit, window)
    requires forall i | 0 <= i < |requests| :: requests[i].key == key
    ensures Within(AllowedTimes(requests, key), from, window, closedLeft) <= if limit < 0 then 0 else limit
  {
    hide Above, LastAnswer, InInterval;
    if requests != [] {
      var front, last := requests[..|requests| - 1], requests[|requests| - 1];
      WindowHoldsAlone(front, key, limit, window, from, closedLeft);
      if LastAnswer(requests).allowed {
        var times := AllowedTimes(front, key);
        SteadyCutoffsRise(requests, key, limit, window);
        AnswersAsFullHistory(requests);
        WithinSnoc(times, last.now, from, window, closedLeft);
        if InInterval(last.now, from, window, closedLeft) {
          WithinIsAbove(times, from, window, closedLeft, last.now);
        }
      }
    }
  }

  /** Every half-open interval of one window's length holds at most `limit` allowed requests of a key. */
  lemma SlidingWindow(requests: seq<Request>, key: string, limit: int, window: int, from: real, closedLeft: bool)
    requires Steady(requests, key, limit, window)
    ensures Within(AllowedTimes(requests, key), from, window, closedLeft) <= if limit < 0 then 0 else limit
  {
    OnKeySteady(requests, key, limit, window);
    WindowHoldsAlone(OnKey(requests, key), key, limit, window, from, closedLeft);
    KeysDoNotInterfere(requests, key);
  }
}
