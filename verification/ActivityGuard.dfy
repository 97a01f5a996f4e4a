/** The activity guard of apps/void-sandbox/src/controller.ts: `#busy`, `#active` and the callers
    that hold a guard. A touch is a storage put, so it is an await and it may throw. */
module ActivityGuard {
  import opened Collections
  import opened Options

  /** A guard is opened by `#active` (first touch pending), held, being finished (last touch pending)
      or closed. */
  datatype Phase = Opening | Held | Finishing | Closed

  /** What holds a guard: an invoke, port fetch, stdin write or process wait at work, or the body of
      a streamed response, which may report its end, an error and a cancel in any order. */
  datatype Use = Working(guard: nat) | Streaming(guard: nat) | Done(guard: nat)

  datatype Activity = Activity(lastActivity: nat, idleDeadline: nat)

  datatype State = State(busy: int, guards: map<nat, Phase>, uses: map<nat, Use>, activity: Option<Activity>)

  const Idle := State(0, map[], map[], None)

  datatype Event =
    | Open(guard: nat)
    | OpenTouched(guard: nat, use: nat, activity: Activity)
    | OpenFailed(guard: nat, left: Option<Activity>)   // the put may fail after #activity was set
    | End(use: nat)              // the call returned or threw: its `finally` finishes the guard
    | Stream(use: nat)           // the call handed its guard to the response body
    | BodyEvent(use: nat)        // end of stream, error or cancel
    | CloseTouched(guard: nat, activity: Activity)
    | CloseFailed(guard: nat, left: Option<Activity>)  // the last touch threw; `finally` still counts down
    | CloseSkipped(guard: nat)   // the container is gone, so there is no last touch

  predicate Enabled(s: State, e: Event) {
    match e
    case Open(g) => g !in s.guards
    case OpenTouched(g, u, _) => g in s.guards && s.guards[g] == Opening && u !in s.uses
    case OpenFailed(g, _) => g in s.guards && s.guards[g] == Opening
    case End(u) => u in s.uses && s.uses[u].Working?
    case Stream(u) => u in s.uses && s.uses[u].Working?
    case BodyEvent(u) => u in s.uses && !s.uses[u].Working?
    case CloseTouched(g, _) => g in s.guards && s.guards[g] == Finishing
    case CloseFailed(g, _) => g in s.guards && s.guards[g] == Finishing
    case CloseSkipped(g) => g in s.guards && s.guards[g] == Finishing
  }

  /** One call of a guard's `finish`: only the first one does anything. */
  function Finish(s: State, g: nat): State
    requires g in s.guards
  {
    if s.guards[g] == Held then s.(guards := s.guards[g := Finishing]) else s
  }

  function CountDown(s: State, g: nat): State {
    s.(busy := s.busy - 1, guards := s.guards[g := Closed])
  }

  function Do(s: State, e: Event): State
    requires Enabled(s, e) && GuardsKnown(s)
  {
    match e
    case Open(g) => s.(busy := s.busy + 1, guards := s.guards[g := Opening])
    case OpenTouched(g, u, a) => s.(guards := s.guards[g := Held], uses := s.uses[u := Working(g)], activity := Some(a))
    case OpenFailed(g, left) => CountDown(s, g).(activity := left)
    case End(u) => Finish(s, s.uses[u].guard).(uses := s.uses[u := Done(s.uses[u].guard)])
    case Stream(u) => s.(uses := s.uses[u := Streaming(s.uses[u].guard)])
    case BodyEvent(u) => Finish(s, s.uses[u].guard).(uses := s.uses[u := Done(s.uses[u].guard)])
    case CloseTouched(g, a) => CountDown(s, g).(activity := Some(a))
    case CloseFailed(g, left) => CountDown(s, g).(activity := left)
    case CloseSkipped(g) => CountDown(s, g)
  }

  /** Guards opened and not yet counted down. */
  function Unfinished(guards: map<nat, Phase>): set<nat> {
    set g | g in guards && guards[g] != Closed
  }

  predicate Outstanding(use: Use) {
    !use.Done?
  }

  function OutstandingUses(s: State): set<nat> {
    set u | u in s.uses && Outstanding(s.uses[u])
  }

  predicate GuardsKnown(s: State) {
    forall u | u in s.uses :: s.uses[u].guard in s.guards
  }

  predicate Inv(s: State) {
    && GuardsKnown(s)
    && s.busy == |Unfinished(s.guards)|
    && (forall u | u in s.uses && Outstanding(s.uses[u]) :: s.guards[s.uses[u].guard] == Held)
    && (forall u | u in s.uses :: s.guards[s.uses[u].guard] != Opening)
    && (forall u | u in s.uses && s.uses[u].Done? :: s.guards[s.uses[u].guard] != Held)
    && (forall u, v | u in s.uses && v in s.uses && u != v :: s.uses[u].guard != s.uses[v].guard)
  }

  /** One guard set to a phase. */
  lemma OneGuardCounts(guards: map<nat, Phase>, g: nat, phase: Phase)
    ensures var was := if g in guards && guards[g] != Closed then 1 else 0;
            |Unfinished(guards[g := phase])| == |Unfinished(guards)| - was + if phase == Closed then 0 else 1
  {
    var before, after := Unfinished(guards), Unfinished(guards[g := phase]);
    if phase == Closed { assert after == before - {g}; } else { assert after == before + {g}; }
  }

  /** Each event moves the counter exactly as it moves the unfinished guards. */
  lemma EventCounts(s: State, e: Event)
    requires GuardsKnown(s) && Enabled(s, e) && s.busy == |Unfinished(s.guards)|
    ensures Do(s, e).busy == |Unfinished(Do(s, e).guards)|
  {
    hide Unfinished;
    if e.Open? { OneGuardCounts(s.guards, e.guard, Opening); }
    else if e.OpenTouched? { OneGuardCounts(s.guards, e.guard, Held); }
    else if e.End? || e.BodyEvent? { OneGuardCounts(s.guards, s.uses[e.use].guard, Finishing); }
    else if !e.Stream? { OneGuardCounts(s.guards, e.guard, Closed); }
  }

  lemma EventKeepsInv(s: State, e: Event)
    requires Inv(s) && Enabled(s, e)
    ensures Inv(Do(s, e))
  {
    EventCounts(s, e);
    hide Unfinished;
  }

  ghost predicate Run(states: seq<State>, events: seq<Event>) {
    && |states| == |events| + 1 && states[0] == Idle
    && forall i | 0 <= i < |events| ::
         GuardsKnown(states[i]) && Enabled(states[i], events[i]) && states[i + 1] == Do(states[i], events[i])
  }

  lemma {:induction false} RunKeepsInv(states: seq<State>, events: seq<Event>, i: nat)
    requires Run(states, events) && i < |states|
    ensures Inv(states[i])
  {
    if i > 0 {
      RunKeepsInv(states, events, i - 1);
      EventKeepsInv(states[i - 1], events[i - 1]);
    }
  }

  /** Guards opened, by the events. */
  function Opened(events: seq<Event>): nat {
    if events == [] then 0 else Opened(events[..|events| - 1]) + if events[|events| - 1].Open? then 1 else 0
  }

  /** Guards done with, by the events: a first touch that threw, or a last one made, thrown or skipped. */
  function Over(events: seq<Event>): nat {
    if events == [] then 0
    else
      var e := events[|events| - 1];
      Over(events[..|events| - 1]) + if e.OpenFailed? || e.CloseTouched? || e.CloseFailed? || e.CloseSkipped? then 1 else 0
  }

  /** The counter is what the events leave: one up for each guard opened, one down for each done with. */
  lemma {:induction false} BusyIsOpenedLessOver(states: seq<State>, events: seq<Event>, i: nat)
    requires Run(states, events) && i < |states|
    ensures states[i].busy == Opened(events[..i]) - Over(events[..i])
  {
    if i > 0 {
      BusyIsOpenedLessOver(states, events, i - 1);
      assert events[..i][..i - 1] == events[..i - 1] && events[..i][i - 1] == events[i - 1];
    }
  }

  /** One guard from its opening to its end: held while its body streams, closed once the body ended, however
      it ended after that. */
  lemma OneStream(a: Activity, b: Activity) returns (states: seq<State>, events: seq<Event>)
    ensures Run(states, events) && |events| == 6
    ensures states[3].busy == 1 && OutstandingUses(states[3]) == {0}
    ensures states[6].busy == 0 && states[6].activity == Some(b) && OutstandingUses(states[6]) == {}
  {
    events := [Open(0), OpenTouched(0, 0, a), Stream(0), BodyEvent(0), BodyEvent(0), CloseTouched(0, b)];
    var s1 := Do(Idle, Open(0));
    var s2 := Do(s1, OpenTouched(0, 0, a));
    var s3 := Do(s2, Stream(0));
    var s4 := Do(s3, BodyEvent(0));
    var s5 := Do(s4, BodyEvent(0));
    states := [Idle, s1, s2, s3, s4, s5, Do(s5, CloseTouched(0, b))];
    assert 0 in OutstandingUses(s3);
  }

  /** The alarm's idle test. */
  predicate IdleAt(s: State, now: nat) {
    s.busy == 0 && s.activity.Some? && now >= s.activity.value.idleDeadline
  }

  /** The counter is exact in every reachable state, so it is never negative, and the idle test never
      passes while a use is outstanding. */
  lemma GuardsBalance(states: seq<State>, events: seq<Event>, i: nat, now: nat)
    requires Run(states, events) && i < |states|
    ensures states[i].busy == |Unfinished(states[i].guards)|
    ensures |OutstandingUses(states[i])| <= states[i].busy
    ensures IdleAt(states[i], now) ==> OutstandingUses(states[i]) == {}
  {
    RunKeepsInv(states, events, i);
    UsesHoldGuards(states[i], OutstandingUses(states[i]));
  }

  lemma {:induction false} UsesHoldGuards(s: State, uses: set<nat>)
    requires Inv(s) && uses <= OutstandingUses(s)
    ensures var held := set u | u in uses && u in s.uses :: s.uses[u].guard;
            |held| == |uses| && held <= Unfinished(s.guards) && |uses| <= |Unfinished(s.guards)|
    decreases |uses|
  {
    var held := set u | u in uses && u in s.uses :: s.uses[u].guard;
    if uses != {} {
      var v :| v in uses;
      var rest := uses - {v};
      UsesHoldGuards(s, rest);
      var heldRest := set u | u in rest && u in s.uses :: s.uses[u].guard;
      assert held == heldRest + {s.uses[v].guard};
    }
    SubsetSize(held, Unfinished(s.guards));
  }

  /** However often end, error and cancel call it, a guard is counted down once: a use that is done
      stays done and a repeated call of its `finish` changes nothing. */
  lemma RepeatedFinishIsNothing(s: State, u: nat)
    requires Inv(s) && u in s.uses && s.uses[u].Done?
    ensures Enabled(s, BodyEvent(u)) && Do(s, BodyEvent(u)) == s
  {
    assert s.uses[u := Done(s.uses[u].guard)] == s.uses;
  }

  function Touch(now: nat, timeout: nat): Activity {
    Activity(now, now + timeout)
  }

  /** `#activity` after a touch that read the clock, or threw before it did. */
  function After(activity: Option<Activity>, read: Option<nat>, timeout: nat): Option<Activity> {
    if read.Some? then Some(Touch(read.value, timeout)) else activity
  }

  function LastTouch(guard: nat, running: bool, touched: bool, activity: Option<Activity>, read: Option<nat>, timeout: nat): Event
    requires touched ==> read.Some?
  {
    if !running then CloseSkipped(guard)
    else if touched then CloseTouched(guard, Touch(read.value, timeout))
    else CloseFailed(guard, After(activity, read, timeout))
  }

  /** The fields and methods of the class, one method per stretch between awaits. */
  class Guards {
    var busy: int
    var finished: map<nat, Phase>
    var activity: Option<Activity>
    ghost var uses: map<nat, Use>

    ghost function Snapshot(): State
      reads this
    {
      State(busy, finished, uses, activity)
    }

    constructor ()
      ensures Snapshot() == Idle && Inv(Snapshot())
    {
      busy, finished, activity, uses := 0, map[], None, map[];
    }

    /** `#active` up to its touch. */
    method Begin(guard: nat)
      requires Inv(Snapshot()) && guard !in finished
      modifies this
      ensures Snapshot() == Do(old(Snapshot()), Open(guard)) && Inv(Snapshot())
      ensures busy == old(busy) + 1
    {
      EventKeepsInv(Snapshot(), Open(guard));
      busy := busy + 1;
      finished := finished[guard := Opening];
    }

    /** `#active` past its touch: the finisher on success, the exception on failure. `read` is the
        clock reading of the touch, if it got that far. */
    method Begun(guard: nat, touched: bool, read: Option<nat>, timeout: nat, ghost use: nat) returns (thrown: bool)
      requires Inv(Snapshot()) && guard in finished && finished[guard] == Opening && use !in uses
      requires touched ==> read.Some?
      modifies this
      ensures thrown == !touched && Inv(Snapshot())
      ensures Snapshot() == Do(old(Snapshot()),
                if touched then OpenTouched(guard, use, Touch(read.value, timeout))
                else OpenFailed(guard, After(old(activity), read, timeout)))
      ensures busy == if touched then old(busy) else old(busy) - 1
      ensures touched ==> activity == Some(Activity(read.value, read.value + timeout))
    {
      EventKeepsInv(Snapshot(), if touched then OpenTouched(guard, use, Touch(read.value, timeout))
                    else OpenFailed(guard, After(activity, read, timeout)));
      thrown := !touched;
      activity := After(activity, read, timeout);
      if touched {
        finished := finished[guard := Held];
        uses := uses[use := Working(guard)];
      } else {
        busy := busy - 1;
        finished := finished[guard := Closed];
      }
    }

    /** The head of the finisher, called when a body ends, fails or is cancelled. */
    method Finish(ghost use: nat, guard: nat) returns (first: bool)
      requires Inv(Snapshot()) && use in uses && uses[use].guard == guard && !uses[use].Working?
      modifies this
      ensures first == (old(finished)[guard] == Held)
      ensures Snapshot() == Do(old(Snapshot()), BodyEvent(use)) && Inv(Snapshot())
      ensures busy == old(busy) && activity == old(activity)
    {
      EventKeepsInv(Snapshot(), BodyEvent(use));
      first := finished[guard] == Held;
      uses := uses[use := Done(guard)];
      if first { finished := finished[guard := Finishing]; }
    }

    /** The rest of the finisher: it counts down whether or not its touch threw. */
    method Finished(guard: nat, running: bool, touched: bool, read: Option<nat>, timeout: nat)
      requires Inv(Snapshot()) && guard in finished && finished[guard] == Finishing
      requires touched ==> read.Some?
      modifies this
      ensures Inv(Snapshot())
      ensures Snapshot() == Do(old(Snapshot()), LastTouch(guard, running, touched, old(activity), read, timeout))
      ensures busy == old(busy) - 1
      ensures running && touched ==> activity == Some(Activity(read.value, read.value + timeout))
      ensures !running ==> activity == old(activity)
    {
      EventKeepsInv(Snapshot(), LastTouch(guard, running, touched, activity, read, timeout));
      if running { activity := After(activity, read, timeout); }
      busy := busy - 1;
      finished := finished[guard := Closed];
    }

    /** The alarm's test, in any state the calls above can reach. */
    method MayReap(now: nat) returns (idle: bool)
      requires Inv(Snapshot())
      ensures idle == IdleAt(Snapshot(), now)
      ensures idle <==> busy == 0 && activity.Some? && activity.value.idleDeadline <= now
      ensures idle ==> forall g | g in finished :: finished[g] == Closed
    {
      idle := busy == 0 && activity.Some? && now >= activity.value.idleDeadline;
      if idle {
        assert Unfinished(finished) == {};
        assert forall g | g in finished :: finished[g] == Closed || g in Unfinished(finished);
      }
    }
  }
}
