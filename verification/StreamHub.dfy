/** The hub that multiplexes a page's feeds onto one stream (`createStreamHub` in
    apps/noite/src/lib/feeds.ts). Hooks are numbered and do not call back into the hub. */
module StreamHub {
  import opened Collections
  import opened Options
  import opened StreamSource

  /** What one subscriber's hooks were told: the last status, and every frame in order. */
  datatype Seen = Seen(status: Status, frames: seq<string>)

  datatype Topic = Topic(last: Option<string>, state: Status, subs: map<nat, Seen>)

  /** `names` is the insertion order of `topics`; `carries` is the topic list in the url the stream was
      opened with; the stream is there exactly while `dispose` is defined. */
  datatype Hub = Hub(names: seq<string>, topics: map<string, Topic>, connected: seq<string>, connection: Status,
                     stream: Option<Stream>, carries: seq<string>, settling: bool, hidden: bool)

  datatype Action =
    | Subscribe(name: string, sub: nat)
    | Unsubscribe(name: string, sub: nat)
    | Settle
    | Frame(index: Option<nat>, payload: string)   // the live source's message, its index already read
    | OnStream(event: Event)                       // the stream's own events
    | Page(hidden: bool)

  function Empty(hidden: bool): Hub {
    Hub([], map[], [], Closed, None, [], false, hidden)
  }

  function Stand(connected: bool, connection: Status, topic: Topic): Status {
    if !connected then Connecting else if connection == Open then topic.state else connection
  }

  function StatusOf(h: Hub, topic: Topic): Status {
    Stand(h.stream.Some?, h.connection, topic)
  }

  function Tell(topic: Topic, status: Status): Topic {
    topic.(subs := map s | s in topic.subs :: topic.subs[s].(status := status))
  }

  function Deliver(topic: Topic, frame: string): Topic {
    topic.(last := Some(frame), subs := map s | s in topic.subs :: topic.subs[s].(frames := topic.subs[s].frames + [frame]))
  }

  function Told(topics: map<string, Topic>, connected: bool, connection: Status): map<string, Topic> {
    map n | n in topics :: Tell(topics[n], Stand(connected, connection, topics[n]))
  }

  /** The hub's `onStatus`: remember it and tell every subscriber where its topic stands. */
  function Report(h: Hub, status: Status): Hub {
    h.(connection := status, topics := Told(h.topics, h.stream.Some?, status))
  }

  function ReportIfAny(h: Hub, status: Option<Status>): Hub {
    if status.Some? then Report(h, status.value) else h
  }

  /** A topic after one message of its own. */
  function Moved(h: Hub, topic: Topic, state: Status, payload: string): Topic {
    var moved := topic.(state := state);
    var told := if topic.state != state then Tell(moved, StatusOf(h, moved)) else moved;
    if payload == "!" || payload == "+" then told else Deliver(told, payload)
  }

  /** The hub's `onMessage`. */
  function Receive(h: Hub, index: Option<nat>, payload: string): Hub {
    if index.None? || index.value >= |h.connected| || h.connected[index.value] !in h.topics then h
    else
      var name := h.connected[index.value];
      h.(topics := h.topics[name := Moved(h, h.topics[name], if payload == "!" then Retrying else Open, payload)])
  }

  /** The names whose topic still has a subscriber, in order. */
  function Wanted(names: seq<string>, topics: map<string, Topic>): (wanted: seq<string>) {
    if names == [] then []
    else
      var n := names[|names| - 1];
      Wanted(names[..|names| - 1], topics) + if n in topics && topics[n].subs != map[] then [n] else []
  }

  function Pruned(topics: map<string, Topic>): map<string, Topic> {
    map n | n in topics && topics[n].subs != map[] :: topics[n]
  }

  predicate SameSet(wanted: seq<string>, connected: seq<string>) {
    |wanted| == |connected| && forall i | 0 <= i < |wanted| :: wanted[i] in connected
  }

  /** Every topic starts over as connecting. */
  function Restarted(topics: map<string, Topic>): map<string, Topic> {
    map n | n in topics :: topics[n].(state := Connecting)
  }

  function Reconcile(h: Hub): Hub {
    var wanted := Wanted(h.names, h.topics);
    var topics := Pruned(h.topics);
    if SameSet(wanted, h.connected) && h.stream.Some? then h.(settling := false, names := wanted, topics := topics)
    else
      var cut := Hub(wanted, Restarted(topics), wanted, h.connection, None, wanted, false, h.hidden);
      if wanted == [] then cut.(connection := Closed)
      else
        var (stream, status) := Start(h.hidden);
        ReportIfAny(cut, status).(stream := Some(stream))   // reported before `dispose` is assigned
  }

  function Joined(h: Hub, name: string, sub: nat): Hub {
    var topic := if name in h.topics then h.topics[name] else Topic(None, Connecting, map[]);
    var settling := h.settling || name !in h.connected || h.stream.None?;
    var seen := if sub in topic.subs then topic.subs[sub].frames else [];
    var frames := if topic.last.Some? then seen + [topic.last.value] else seen;
    h.(settling := settling,
       names := if name in h.topics then h.names else h.names + [name],
       topics := h.topics[name := topic.(subs := topic.subs[sub := Seen(StatusOf(h, topic), frames)])])
  }

  function Left(h: Hub, name: string, sub: nat): Hub {
    if name in h.topics && sub in h.topics[name].subs
    then h.(settling := true, topics := h.topics[name := h.topics[name].(subs := h.topics[name].subs - {sub})])
    else h
  }

  predicate CanDo(h: Hub, a: Action, base: nat) {
    match a
    case Settle => h.settling
    case Frame(_, _) => h.stream.Some? && h.stream.value.live != {}
    case OnStream(e) => h.stream.Some? && !e.Visibility? && !e.Dispose? && Enabled(h.stream.value, e, base)
    case _ => true
  }

  function Act(h: Hub, a: Action, base: nat, cap: nat): Hub {
    match a
    case Subscribe(name, sub) => Joined(h, name, sub)
    case Unsubscribe(name, sub) => Left(h, name, sub)
    case Settle => Reconcile(h)
    case Frame(index, payload) => Receive(h, index, payload)
    case OnStream(e) =>
      if h.stream.None? then h
      else
        var (stream, status) := Do(h.stream.value, e, base, cap);
        ReportIfAny(h.(stream := Some(stream)), status)
    case Page(hidden) =>
      if h.stream.None? then h.(hidden := hidden)
      else
        var (stream, status) := Do(h.stream.value, Visibility(hidden), base, cap);
        ReportIfAny(h.(hidden := hidden, stream := Some(stream)), status)
  }

  // ---- what every run keeps ----

  function Subscribed(topics: map<string, Topic>): set<string> {
    set n | n in topics && topics[n].subs != map[]
  }

  predicate NamesFit(h: Hub) {
    && Distinct(h.names) && Elements(h.names) == h.topics.Keys
    && Distinct(h.connected) && Elements(h.connected) <= h.topics.Keys
  }

  predicate StreamFits(h: Hub, base: nat, cap: nat) {
    && (h.stream.Some? <==> h.connected != [])
    && (h.stream.Some? ==>
          && h.carries == h.connected && Inv(h.stream.value, base, cap)
          && !h.stream.value.disposed && h.stream.value.hidden == h.hidden
          && (h.stream.value.made == 0 ==> h.connection == Closed))
  }

  predicate Agrees(h: Hub) {
    !h.settling ==> Elements(h.connected) == Subscribed(h.topics) == h.topics.Keys
  }

  predicate SeenOk(h: Hub, topic: Topic, seen: Seen) {
    && (topic.last.Some? ==> seen.frames != [] && seen.frames[|seen.frames| - 1] == topic.last.value)
    && (seen.status == StatusOf(h, topic)
        || (h.stream.Some? && h.stream.value.made == 0 && seen.status == Connecting))
  }

  ghost predicate SeenFits(h: Hub) {
    forall n, s | n in h.topics && s in h.topics[n].subs :: SeenOk(h, h.topics[n], h.topics[n].subs[s])
  }

  ghost predicate HubInv(h: Hub, base: nat, cap: nat) {
    NamesFit(h) && StreamFits(h, base, cap) && Agrees(h) && SeenFits(h)
  }

  // ---- sets of names ----

  lemma NamesHead(names: seq<string>, i: nat)
    requires Distinct(names) && i < |names|
    ensures Elements(names[i + 1..]) == Elements(names[i..]) - {names[i]} && names[i] in Elements(names[i..])
  {
    var all, rest := names[i..], names[i + 1..];
    assert all[0] == names[i];
    assert forall j | 0 <= j < |rest| :: rest[j] == all[j + 1] == names[i + 1 + j];
    forall x | x in Elements(all) && x != names[i] ensures x in Elements(rest) {
      var j :| 0 <= j < |all| && all[j] == x;
      assert rest[j - 1] == x;
    }
    forall x | x in Elements(rest) ensures x in Elements(all) {
      var j :| 0 <= j < |rest| && rest[j] == x;
      assert all[j + 1] == x;
    }
  }

  lemma NothingNamed()
    ensures Elements<string>([]) == {}
  {
  }

  /** The topics with a subscriber and those not looked at yet. */
  function KeptOr(topics: map<string, Topic>, rest: set<string>): map<string, Topic> {
    map n | n in topics && (topics[n].subs != map[] || n in rest) :: topics[n]
  }

  lemma {:induction false} WantedIsSubscribed(names: seq<string>, topics: map<string, Topic>)
    requires Distinct(names)
    ensures var wanted := Wanted(names, topics);
            && Distinct(wanted) && Elements(wanted) == Elements(names) * Subscribed(topics)
  {
    if names != [] {
      var init, n := names[..|names| - 1], names[|names| - 1];
      WantedIsSubscribed(init, topics);
      assert names == init + [n];
      ElementsSnoc(init, n);
      var before := Wanted(init, topics);
      assert n !in Elements(init);
      if n in Subscribed(topics) {
        assert Wanted(names, topics) == before + [n];
        ElementsSnoc(before, n);
        forall i | 0 <= i < |before| ensures before[i] != n { assert before[i] in Elements(before); }
      } else {
        assert Wanted(names, topics) == before;
      }
    }
  }

  /** Comparing lengths and one inclusion does compare the sets. */
  lemma SameSetIsEqual(wanted: seq<string>, connected: seq<string>)
    requires Distinct(wanted) && Distinct(connected)
    ensures SameSet(wanted, connected) <==> Elements(wanted) == Elements(connected)
  {
    DistinctSize(wanted);
    DistinctSize(connected);
    if SameSet(wanted, connected) {
      assert Elements(wanted) <= Elements(connected);
      SubsetSize(Elements(wanted), Elements(connected));
    }
    if Elements(wanted) == Elements(connected) {
      forall i | 0 <= i < |wanted| ensures wanted[i] in connected { assert wanted[i] in Elements(wanted); }
    }
  }

  // ---- each action ----

  /** `r` has the topics, subscribers, order and connection of `h`. */
  ghost predicate SameShape(h: Hub, r: Hub) {
    && r.names == h.names && r.connected == h.connected && r.settling == h.settling && r.carries == h.carries
    && r.topics.Keys == h.topics.Keys
    && forall n | n in h.topics :: n in r.topics && r.topics[n].subs.Keys == h.topics[n].subs.Keys
  }

  lemma ShapeKeeps(h: Hub, r: Hub)
    requires NamesFit(h) && Agrees(h) && SameShape(h, r)
    ensures NamesFit(r) && Agrees(r)
  {
    hide Distinct, Elements;
    assert forall n | n in h.topics :: r.topics[n].subs == map[] <==> h.topics[n].subs == map[];
    assert Subscribed(r.topics) == Subscribed(h.topics);
  }

  predicate FramesOk(topic: Topic, seen: Seen) {
    topic.last.Some? ==> seen.frames != [] && seen.frames[|seen.frames| - 1] == topic.last.value
  }

  ghost predicate FramesFit(h: Hub) {
    forall n, s | n in h.topics && s in h.topics[n].subs :: FramesOk(h.topics[n], h.topics[n].subs[s])
  }

  /** Every subscriber's last status is where its topic stands. */
  ghost predicate AllTold(h: Hub) {
    forall n, s | n in h.topics && s in h.topics[n].subs :: h.topics[n].subs[s].status == StatusOf(h, h.topics[n])
  }

  lemma SeenFitsFrames(h: Hub)
    requires SeenFits(h)
    ensures FramesFit(h)
  {
    forall n, s | n in h.topics && s in h.topics[n].subs ensures FramesOk(h.topics[n], h.topics[n].subs[s]) {
      assert SeenOk(h, h.topics[n], h.topics[n].subs[s]);
    }
  }

  lemma ReportTells(h: Hub, status: Status)
    requires FramesFit(h)
    ensures SameShape(h, Report(h, status)) && FramesFit(Report(h, status)) && AllTold(Report(h, status))
  {
  }

  lemma ReportKeeps(h: Hub, status: Status, base: nat, cap: nat)
    requires NamesFit(h) && StreamFits(h.(connection := status), base, cap) && Agrees(h) && FramesFit(h)
    ensures HubInv(Report(h, status), base, cap) && AllTold(Report(h, status))
  {
    hide NamesFit, Agrees, Inv;
    ReportTells(h, status);
    ShapeKeeps(h, Report(h, status));
    assert SeenFits(Report(h, status)) by { ToldAndFrames(Report(h, status)); }
  }

  lemma ToldAndFrames(h: Hub)
    requires FramesFit(h) && AllTold(h)
    ensures SeenFits(h)
  {
    forall n, s | n in h.topics && s in h.topics[n].subs ensures SeenOk(h, h.topics[n], h.topics[n].subs[s]) {
      assert FramesOk(h.topics[n], h.topics[n].subs[s]);
    }
  }

  lemma JoinSeen(h: Hub, name: string, sub: nat)
    requires SeenFits(h)
    ensures SeenFits(Joined(h, name, sub))
  {
    var r := Joined(h, name, sub);
    forall n, s | n in r.topics && s in r.topics[n].subs ensures SeenOk(r, r.topics[n], r.topics[n].subs[s]) {
      if n in h.topics && s in h.topics[n].subs { assert SeenOk(h, h.topics[n], h.topics[n].subs[s]); }
    }
  }

  lemma JoinNames(h: Hub, name: string, sub: nat)
    requires NamesFit(h) && Agrees(h)
    ensures NamesFit(Joined(h, name, sub)) && Agrees(Joined(h, name, sub))
  {
    var r := Joined(h, name, sub);
    assert r.topics.Keys == h.topics.Keys + {name};
    if name !in h.topics {
      ElementsSnoc(h.names, name);
      forall i | 0 <= i < |h.names| ensures h.names[i] != name { assert h.names[i] in Elements(h.names); }
    }
    assert sub in r.topics[name].subs;
    if !r.settling {
      assert name in Elements(h.connected);
      assert Subscribed(r.topics) == Subscribed(h.topics) + {name};
    }
  }

  lemma JoinKeeps(h: Hub, name: string, sub: nat, base: nat, cap: nat)
    requires HubInv(h, base, cap)
    ensures HubInv(Joined(h, name, sub), base, cap)
  {
    hide Inv, NamesFit, Agrees, SeenFits;
    JoinSeen(h, name, sub);
    JoinNames(h, name, sub);
  }

  lemma LeaveKeeps(h: Hub, name: string, sub: nat, base: nat, cap: nat)
    requires HubInv(h, base, cap)
    ensures HubInv(Left(h, name, sub), base, cap)
  {
    hide Inv;
    assert Left(h, name, sub).topics.Keys == h.topics.Keys;
  }

  lemma MovedSeen(h: Hub, topic: Topic, state: Status, payload: string, s: nat)
    requires s in topic.subs && SeenOk(h, topic, topic.subs[s]) && (h.stream.Some? ==> h.stream.value.made > 0)
    ensures var next := Moved(h, topic, state, payload); s in next.subs && SeenOk(h, next, next.subs[s])
  {
  }

  lemma ReceiveSeen(h: Hub, index: Option<nat>, payload: string)
    requires SeenFits(h) && h.stream.Some? && h.stream.value.made > 0
    ensures SeenFits(Receive(h, index, payload)) && SameShape(h, Receive(h, index, payload))
  {
    hide SeenOk, Moved;
    var r := Receive(h, index, payload);
    MovedSubs(h);
    forall n, s | n in r.topics && s in r.topics[n].subs ensures SeenOk(r, r.topics[n], r.topics[n].subs[s]) {
      assert SeenOk(h, h.topics[n], h.topics[n].subs[s]);
      MovedSeen(h, h.topics[n], if payload == "!" then Retrying else Open, payload, s);
      SeenElsewhere(h, r, r.topics[n], r.topics[n].subs[s]);
    }
  }

  lemma MovedSubs(h: Hub)
    ensures forall topic, state, payload :: Moved(h, topic, state, payload).subs.Keys == topic.subs.Keys
  {
  }

  lemma SeenElsewhere(h: Hub, r: Hub, topic: Topic, seen: Seen)
    requires r.stream == h.stream && r.connection == h.connection
    ensures SeenOk(h, topic, seen) <==> SeenOk(r, topic, seen)
  {
  }

  lemma ReceiveKeeps(h: Hub, index: Option<nat>, payload: string, base: nat, cap: nat)
    requires HubInv(h, base, cap) && h.stream.Some? && h.stream.value.live != {}
    ensures HubInv(Receive(h, index, payload), base, cap)
  {
    hide NamesFit, Agrees, SeenFits;
    assert h.stream.value.made > 0;
    ReceiveSeen(h, index, payload);
    ShapeKeeps(h, Receive(h, index, payload));
  }

  lemma PrunedSeen(h: Hub, names: seq<string>)
    requires SeenFits(h)
    ensures SeenFits(h.(settling := false, names := names, topics := Pruned(h.topics)))
    ensures FramesFit(h.(topics := Restarted(Pruned(h.topics))))
  {
    var r := h.(settling := false, names := names, topics := Pruned(h.topics));
    forall n, s | n in r.topics && s in r.topics[n].subs
      ensures SeenOk(r, r.topics[n], r.topics[n].subs[s]) && FramesOk(r.topics[n], r.topics[n].subs[s])
    {
      assert SeenOk(h, h.topics[n], h.topics[n].subs[s]);
    }
  }

  lemma CutNames(h: Hub)
    requires NamesFit(h)
    ensures var wanted, topics := Wanted(h.names, h.topics), Pruned(h.topics);
            && Distinct(wanted) && Elements(wanted) == Subscribed(h.topics)
            && topics.Keys == Restarted(topics).Keys == Subscribed(h.topics)
            && Subscribed(topics) == Subscribed(Restarted(topics)) == Subscribed(h.topics)
            && (SameSet(wanted, h.connected) <==> Elements(h.connected) == Subscribed(h.topics))
            && (wanted == [] ==> Subscribed(h.topics) == {})
  {
    hide SameSet;
    var wanted, topics := Wanted(h.names, h.topics), Pruned(h.topics);
    WantedIsSubscribed(h.names, h.topics);
    assert Elements(h.names) * Subscribed(h.topics) == Subscribed(h.topics);
    SameSetIsEqual(wanted, h.connected);
    assert forall n | n in topics :: Restarted(topics)[n].subs == topics[n].subs;
    assert Restarted(topics).Keys == topics.Keys;
  }

  lemma ReconcileKeeps(h: Hub, base: nat, cap: nat)
    requires HubInv(h, base, cap)
    ensures HubInv(Reconcile(h), base, cap)
  {
    hide Inv, Start, SeenFits, FramesFit, Wanted, Pruned, Restarted, Subscribed, SameSet, Elements, Distinct;
    var wanted, topics := Wanted(h.names, h.topics), Pruned(h.topics);
    CutNames(h);
    PrunedSeen(h, wanted);
    if !(SameSet(wanted, h.connected) && h.stream.Some?) {
      var cut := Hub(wanted, Restarted(topics), wanted, h.connection, None, wanted, false, h.hidden);
      if wanted == [] {
        NothingLeft(cut.(connection := Closed));
      } else {
        assert FramesFit(cut) by { FramesFitFor(h.(topics := Restarted(topics)), cut); }
        StartedFits(cut, base, cap);
      }
    }
  }

  lemma FramesFitFor(h: Hub, r: Hub)
    requires FramesFit(h) && h.topics == r.topics
    ensures FramesFit(r)
  {
  }

  lemma NothingLeft(h: Hub)
    requires h.topics.Keys == {}
    ensures SeenFits(h)
  {
  }

  lemma StartedFits(cut: Hub, base: nat, cap: nat)
    requires NamesFit(cut) && Agrees(cut) && cut.stream.None? && cut.connected != [] && cut.carries == cut.connected
    requires FramesFit(cut)
    ensures var (stream, status) := Start(cut.hidden);
            HubInv(ReportIfAny(cut, status).(stream := Some(stream)), base, cap)
  {
    hide Inv, Start, NamesFit, Agrees, FramesFit, AllTold, SeenFits, Report;
    StartIsInv(cut.hidden, base, cap);
    var (stream, status) := Start(cut.hidden);
    var told := Report(cut, status.value);
    ReportTells(cut, status.value);
    var r := told.(stream := Some(stream));
    assert SameShape(cut, r);
    ShapeKeeps(cut, r);
    ReportSets(cut, status.value);
    FirstTold(told, stream);
  }

  lemma ReportSets(h: Hub, status: Status)
    ensures Report(h, status) == h.(connection := status, topics := Report(h, status).topics)
  {
  }

  lemma FirstTold(told: Hub, stream: Stream)
    requires told.stream.None? && FramesFit(told) && AllTold(told)
    requires if stream.made == 0 then true else told.connection == Connecting
    ensures SeenFits(told.(stream := Some(stream)))
  {
    var r := told.(stream := Some(stream));
    forall n, s | n in r.topics && s in r.topics[n].subs ensures SeenOk(r, r.topics[n], r.topics[n].subs[s]) {
      assert FramesOk(told.topics[n], told.topics[n].subs[s]);
    }
  }

  lemma StreamStepKeeps(h: Hub, e: Event, hidden: bool, base: nat, cap: nat)
    requires HubInv(h, base, cap) && h.stream.Some? && Enabled(h.stream.value, e, base)
    requires !e.Dispose? && hidden == if e.Visibility? then e.hidden else h.hidden
    ensures var (stream, status) := Do(h.stream.value, e, base, cap);
            HubInv(ReportIfAny(h.(hidden := hidden, stream := Some(stream)), status), base, cap)
  {
    hide Inv, Do, NamesFit, Agrees, SeenFits, FramesFit, Report;
    EventKeepsInv(h.stream.value, e, base, cap);
    StepFacts(h.stream.value, e, base, cap);
    var (stream, status) := Do(h.stream.value, e, base, cap);
    var moved := h.(hidden := hidden, stream := Some(stream));
    assert SameShape(h, moved);
    ShapeKeeps(h, moved);
    SeenFitsFrames(h);
    FramesFitFor(h, moved);
    if status.Some? { ReportKeeps(moved, status.value, base, cap); } else { QuietStep(h, moved); }
  }

  lemma QuietStep(h: Hub, moved: Hub)
    requires SeenFits(h) && h.stream.Some? && moved.stream.Some? && moved.stream.value.made == h.stream.value.made
    requires moved.topics == h.topics && moved.connection == h.connection
    ensures SeenFits(moved)
  {
    forall n, s | n in moved.topics && s in moved.topics[n].subs
      ensures SeenOk(moved, moved.topics[n], moved.topics[n].subs[s])
    {
      assert SeenOk(h, h.topics[n], h.topics[n].subs[s]);
    }
  }

  lemma StepFacts(s: Stream, e: Event, base: nat, cap: nat)
    requires Inv(s, base, cap) && !s.disposed && Enabled(s, e, base) && !e.Dispose?
    ensures var (next, status) := Do(s, e, base, cap);
            && !next.disposed && next.hidden == (if e.Visibility? then e.hidden else s.hidden)
            && (next.made == 0 && status.Some? ==> status.value == Closed)
            && (next.made != s.made ==> status.Some?)
  {
    hide Delay;
  }

  lemma ActKeepsInv(h: Hub, a: Action, base: nat, cap: nat)
    requires HubInv(h, base, cap) && CanDo(h, a, base)
    ensures HubInv(Act(h, a, base, cap), base, cap)
  {
    hide HubInv, Joined, Left, Reconcile, Receive, ReportIfAny, Do, Enabled;
    match a
    case Subscribe(name, sub) => JoinKeeps(h, name, sub, base, cap);
    case Unsubscribe(name, sub) => LeaveKeeps(h, name, sub, base, cap);
    case Settle => ReconcileKeeps(h, base, cap);
    case Frame(index, payload) => ReceiveKeeps(h, index, payload, base, cap);
    case OnStream(e) => StreamStepKeeps(h, e, h.hidden, base, cap);
    case Page(hidden) =>
      if h.stream.Some? {
        AlwaysEnabled(h.stream.value, hidden, base);
        StreamStepKeeps(h, Visibility(hidden), hidden, base, cap);
      } else {
        HiddenAlone(h, hidden, base, cap);
      }
  }

  lemma AlwaysEnabled(s: Stream, hidden: bool, base: nat)
    ensures Enabled(s, Visibility(hidden), base)
  {
  }

  lemma HiddenAlone(h: Hub, hidden: bool, base: nat, cap: nat)
    requires HubInv(h, base, cap) && h.stream.None?
    ensures HubInv(h.(hidden := hidden), base, cap)
  {
  }

  function Run(hidden: bool, actions: seq<Action>, base: nat, cap: nat): Option<Hub> {
    if actions == [] then Some(Empty(hidden))
    else
      var before := Run(hidden, actions[..|actions| - 1], base, cap);
      if before.Some? && CanDo(before.value, actions[|actions| - 1], base)
      then Some(Act(before.value, actions[|actions| - 1], base, cap))
      else None
  }

  lemma {:induction false} RunKeepsInv(hidden: bool, actions: seq<Action>, base: nat, cap: nat)
    requires Run(hidden, actions, base, cap).Some?
    ensures HubInv(Run(hidden, actions, base, cap).value, base, cap)
  {
    hide HubInv, Act, CanDo;
    if actions == [] {
      EmptyIsInv(hidden, base, cap);
    } else {
      RunKeepsInv(hidden, actions[..|actions| - 1], base, cap);
      ActKeepsInv(Run(hidden, actions[..|actions| - 1], base, cap).value, actions[|actions| - 1], base, cap);
    }
  }

  lemma EmptyIsInv(hidden: bool, base: nat, cap: nat)
    ensures HubInv(Empty(hidden), base, cap)
  {
  }

  // ---- what a page can rely on ----

  /** With no settle pending the connection is there exactly when some topic has a subscriber, and its
      url carries exactly those topics. */
  lemma ConnectionCarriesSubscribed(hidden: bool, actions: seq<Action>, base: nat, cap: nat)
    requires Run(hidden, actions, base, cap).Some? && !Run(hidden, actions, base, cap).value.settling
    ensures var h := Run(hidden, actions, base, cap).value;
            && (h.stream.Some? <==> Subscribed(h.topics) != {})
            && (h.stream.Some? ==> Elements(h.carries) == Subscribed(h.topics) && Distinct(h.carries))
  {
    hide Run, SeenFits;
    RunKeepsInv(hidden, actions, base, cap);
    var h := Run(hidden, actions, base, cap).value;
    if h.connected != [] { assert h.connected[0] in Elements(h.connected); }
  }

  predicate IsData(payload: string) {
    payload != "!" && payload != "+"
  }

  /** A data frame with index i is appended for each current subscriber of the i-th topic in the url
      and for nobody else; any other message delivers nothing. */
  lemma FrameReachesItsTopic(hidden: bool, actions: seq<Action>, index: Option<nat>, payload: string, base: nat, cap: nat)
    requires Run(hidden, actions, base, cap).Some?
    requires CanDo(Run(hidden, actions, base, cap).value, Frame(index, payload), base)
    ensures var h := Run(hidden, actions, base, cap).value;
            var r := Act(h, Frame(index, payload), base, cap);
            && r.topics.Keys == h.topics.Keys
            && forall n | n in h.topics ::
                 && r.topics[n].subs.Keys == h.topics[n].subs.Keys
                 && forall s | s in h.topics[n].subs ::
                      r.topics[n].subs[s].frames == h.topics[n].subs[s].frames +
                        if index.Some? && index.value < |h.carries| && h.carries[index.value] == n && IsData(payload)
                        then [payload] else []
  {
    hide Run, SeenFits, Inv, Agrees;
    RunKeepsInv(hidden, actions, base, cap);
    var h := Run(hidden, actions, base, cap).value;
    assert forall i | 0 <= i < |h.connected| :: h.connected[i] in Elements(h.connected);
  }

  /** A late subscriber is not left behind: every subscriber's newest frame is its topic's last one. */
  lemma EverySubscriberHasTheLastFrame(hidden: bool, actions: seq<Action>, base: nat, cap: nat, n: string, s: nat)
    requires Run(hidden, actions, base, cap).Some?
    requires var h := Run(hidden, actions, base, cap).value; n in h.topics && s in h.topics[n].subs && h.topics[n].last.Some?
    ensures var h := Run(hidden, actions, base, cap).value;
            var frames := h.topics[n].subs[s].frames;
            frames != [] && frames[|frames| - 1] == h.topics[n].last.value
  {
    hide Run, NamesFit, StreamFits, Agrees;
    RunKeepsInv(hidden, actions, base, cap);
    var h := Run(hidden, actions, base, cap).value;
    assert SeenOk(h, h.topics[n], h.topics[n].subs[s]);
  }

  /** Subscribers were told where they stand, unless the stream was opened on a hidden page and has had
      no source since. */
  lemma ToldIsCurrent(hidden: bool, actions: seq<Action>, base: nat, cap: nat)
    requires Run(hidden, actions, base, cap).Some?
    requires var h := Run(hidden, actions, base, cap).value; h.stream.Some? ==> h.stream.value.made > 0
    ensures AllTold(Run(hidden, actions, base, cap).value)
  {
    hide Run, NamesFit, StreamFits, Agrees;
    RunKeepsInv(hidden, actions, base, cap);
    var h := Run(hidden, actions, base, cap).value;
    forall n, s | n in h.topics && s in h.topics[n].subs
      ensures h.topics[n].subs[s].status == StatusOf(h, h.topics[n])
    {
      assert SeenOk(h, h.topics[n], h.topics[n].subs[s]);
    }
  }

  /** Where a topic stands: connecting without a stream, what the stream last said when that is not open,
      and its own state when it is. */
  lemma ToldWhereItStands(hidden: bool, actions: seq<Action>, base: nat, cap: nat, n: string, s: nat)
    requires Run(hidden, actions, base, cap).Some?
    requires var h := Run(hidden, actions, base, cap).value;
             (h.stream.Some? ==> h.stream.value.made > 0) && n in h.topics && s in h.topics[n].subs
    ensures var h := Run(hidden, actions, base, cap).value;
            h.topics[n].subs[s].status ==
              if h.stream.None? then Connecting
              else if h.connection != Open then h.connection
              else h.topics[n].state
  {
    ToldIsCurrent(hidden, actions, base, cap);
    hide Run;
  }

  /** A message moves its topic alone: to retrying on `!`, to open on any other. */
  lemma MessageMovesItsTopic(h: Hub, index: nat, payload: string, base: nat, cap: nat)
    requires index < |h.connected| && h.connected[index] in h.topics
    ensures var r, n := Act(h, Frame(Some(index), payload), base, cap), h.connected[index];
            && n in r.topics && r.topics[n].state == (if payload == "!" then Retrying else Open)
            && r.connection == h.connection
            && forall k | k in h.topics && k != n :: k in r.topics && r.topics[k] == h.topics[k]
  {
  }

  /** A source that opens takes the connection to open, one that drops or dies to retrying, and every
      subscriber hears where its topic stands then. */
  lemma SourceMovesConnection(h: Hub, id: nat, jitter: nat, dead: bool, base: nat, cap: nat)
    requires h.stream.Some? && FramesFit(h)
    ensures var up := Act(h, OnStream(Opened(id)), base, cap);
            && up.connection == Open
            && forall n, s | n in up.topics && s in up.topics[n].subs :: up.topics[n].subs[s].status == up.topics[n].state
    ensures var down := Act(h, OnStream(if dead then Died(id, jitter) else Dropped(id)), base, cap);
            && down.connection == Retrying
            && forall n, s | n in down.topics && s in down.topics[n].subs :: down.topics[n].subs[s].status == Retrying
  {
    hide Delay;
  }

  /** A settle reopens exactly when the subscribed set changed. When it does open a stream, subscribers
      are told where they stand if and only if the page is visible: the first report runs before the
      stream counts as there, so on a hidden page they hear "connecting" and not "closed". */
  lemma SettleReopensOnChange(h: Hub, base: nat, cap: nat)
    requires HubInv(h, base, cap)
    ensures var r := Reconcile(h);
            && Elements(r.connected) == Subscribed(h.topics) == r.topics.Keys
            && (h.stream.Some? && Elements(h.connected) == Subscribed(h.topics) ==>
                  r.stream == h.stream && r.connected == h.connected && r.connection == h.connection)
            && (Subscribed(h.topics) != {} && !(h.stream.Some? && Elements(h.connected) == Subscribed(h.topics)) ==>
                  && r.stream == Some(Start(h.hidden).0)
                  && (AllTold(r) <==> !h.hidden))
  {
    hide Inv, SeenFits, FramesFit, Wanted, Pruned, Restarted, SameSet, Elements, Distinct, AllTold, Start;
    ReconcileKeeps(h, base, cap);
    CutNames(h);
    PrunedSeen(h, Wanted(h.names, h.topics));
    var r := Reconcile(h);
    if Subscribed(h.topics) != {} && !(h.stream.Some? && Elements(h.connected) == Subscribed(h.topics)) {
      StartIsInv(h.hidden, base, cap);
      var topics := Restarted(Pruned(h.topics));
      var cut := Hub(Wanted(h.names, h.topics), topics, Wanted(h.names, h.topics), h.connection, None,
                     Wanted(h.names, h.topics), false, h.hidden);
      FramesFitFor(h.(topics := topics), cut);
      var n :| n in Subscribed(h.topics);
      OpeningTells(cut, n);
    }
  }

  function Panel(state: Status): map<string, Topic> {
    map["t" := Topic(None, state, map[0 := Seen(Connecting, [])])]
  }

  lemma OnePanelJoins()
    ensures Joined(Empty(true), "t", 0) == Hub(["t"], Panel(Connecting), [], Closed, None, [], true, true)
  {
    assert map[0 := Seen(Connecting, [])] == (map[])[0 := Seen(Connecting, [])];
  }

  lemma HiddenSettle(h: Hub)
    requires h == Hub(["t"], Panel(Connecting), [], Closed, None, [], true, true)
    ensures var r := Reconcile(h);
            && r.topics == Told(Panel(Connecting), false, Closed) && r.connection == Closed && r.stream.Some?
  {
    hide Told, SameSet;
    assert h.names[..0] == [] && Wanted(h.names[..0], h.topics) == [];
    assert 0 in h.topics["t"].subs;
    assert Wanted(h.names, h.topics) == ["t"];
    assert Restarted(Pruned(h.topics)) == Panel(Connecting);
    assert Start(true).1 == Some(Closed);
  }

  lemma PanelTold(status: Status)
    ensures Told(Panel(Connecting), false, status) == Panel(Connecting)
  {
    var topic := Panel(Connecting)["t"];
    assert Tell(topic, Connecting).subs == topic.subs;
  }

  /** A settle that reopens starts every topic over as connecting, drops those nobody is subscribed to, and
      keeps what the others have seen. */
  lemma ReopenedTopicsStartOver(h: Hub)
    requires !(SameSet(Wanted(h.names, h.topics), h.connected) && h.stream.Some?)
    ensures var r := Reconcile(h);
            && (forall n :: n in r.topics <==> n in h.topics && h.topics[n].subs != map[])
            && forall n | n in r.topics ::
                 && r.topics[n].state == Connecting && r.topics[n].last == h.topics[n].last
                 && r.topics[n].subs.Keys == h.topics[n].subs.Keys
                 && forall s | s in r.topics[n].subs :: r.topics[n].subs[s].frames == h.topics[n].subs[s].frames
  {
    var topics := Restarted(Pruned(h.topics));
    ReopenedTopics(h);
    RestartedKeeps(h.topics);
    forall status { ToldKeeps(topics, status); }
    hide *;
  }

  lemma ReopenedTopics(h: Hub)
    requires !(SameSet(Wanted(h.names, h.topics), h.connected) && h.stream.Some?)
    ensures var topics := Restarted(Pruned(h.topics));
            Reconcile(h).topics == topics || exists status :: Reconcile(h).topics == Told(topics, false, status)
  {
    hide Wanted, SameSet, Restarted, Pruned, Told;
  }

  lemma RestartedKeeps(topics: map<string, Topic>)
    ensures var r := Restarted(Pruned(topics));
            && (forall n :: n in r <==> n in topics && topics[n].subs != map[])
            && forall n | n in r :: r[n] == topics[n].(state := Connecting)
  {
  }

  lemma ToldKeeps(topics: map<string, Topic>, status: Status)
    ensures var r := Told(topics, false, status);
            && r.Keys == topics.Keys
            && forall n | n in r ::
                 && r[n].state == topics[n].state && r[n].last == topics[n].last && r[n].subs.Keys == topics[n].subs.Keys
                 && forall s | s in r[n].subs :: r[n].subs[s].frames == topics[n].subs[s].frames
  {
  }

  /** Such a run: on a hidden page one panel subscribes and the set settles. */
  lemma HiddenPageIsMistold(base: nat, cap: nat)
    ensures var h := Run(true, [Subscribe("t", 0), Settle], base, cap);
            && h.Some? && "t" in h.value.topics && 0 in h.value.topics["t"].subs
            && h.value.topics["t"].subs[0].status == Connecting
            && StatusOf(h.value, h.value.topics["t"]) == Closed && !AllTold(h.value)
  {
    hide Joined, Reconcile, Told;
    var actions, h := [Subscribe("t", 0), Settle], Joined(Empty(true), "t", 0);
    assert actions[..1] == [Subscribe("t", 0)] && actions[..1][..0] == [];
    OnePanelJoins();
    assert Run(true, actions[..1], base, cap) == Some(h);
    assert Run(true, actions, base, cap) == Some(Reconcile(h));
    HiddenSettle(h);
    PanelTold(Closed);
    hide Run, AllTold;
    PanelIsMistold(Reconcile(h));
  }

  lemma PanelIsMistold(h: Hub)
    requires h.topics == Panel(Connecting) && h.connection == Closed && h.stream.Some?
    ensures StatusOf(h, h.topics["t"]) == Closed && !AllTold(h)
  {
    assert h.topics["t"].subs[0].status == Connecting;
  }

  lemma OpeningTells(cut: Hub, n: string)
    requires cut.stream.None? && FramesFit(cut) && n in cut.topics && cut.topics[n].subs != map[]
    ensures var (stream, status) := Start(cut.hidden);
            AllTold(ReportIfAny(cut, status).(stream := Some(stream))) <==> !cut.hidden
  {
    var (stream, status) := Start(cut.hidden);
    var r := ReportIfAny(cut, status).(stream := Some(stream));
    var s :| s in cut.topics[n].subs;
    assert s in r.topics[n].subs && r.topics[n].subs[s].status == Connecting;
    assert StatusOf(r, r.topics[n]) == if cut.hidden then Closed else Connecting;
  }

  lemma VisibleSettle(h: Hub)
    requires h == Hub(["t"], Panel(Connecting), [], Closed, None, [], true, false)
    ensures var r := Reconcile(h);
            && r.topics == Told(Panel(Connecting), false, Connecting) && r.connection == Connecting
            && r.connected == r.carries == ["t"] && r.stream == Some(Start(false).0)
  {
    hide Told, SameSet;
    assert h.names[..0] == [] && Wanted(h.names[..0], h.topics) == [];
    assert 0 in h.topics["t"].subs;
    assert Wanted(h.names, h.topics) == ["t"];
    assert Restarted(Pruned(h.topics)) == Panel(Connecting);
    assert Start(false).1 == Some(Connecting);
  }

  lemma PanelJoinsVisible()
    ensures Joined(Empty(false), "t", 0) == Hub(["t"], Panel(Connecting), [], Closed, None, [], true, false)
  {
    assert map[0 := Seen(Connecting, [])] == (map[])[0 := Seen(Connecting, [])];
  }

  /** On a visible page a panel that subscribes gets the frames of its topic. */
  lemma FrameArrives(payload: string, base: nat, cap: nat)
    requires IsData(payload)
    ensures var h := Run(false, [Subscribe("t", 0), Settle, Frame(Some(0), payload)], base, cap);
            && h.Some? && "t" in h.value.topics && 0 in h.value.topics["t"].subs
            && h.value.topics["t"].subs[0].frames == [payload]
  {
    hide Joined, Reconcile, Told, Start, Receive;
    var actions := [Subscribe("t", 0), Settle];
    assert [Subscribe("t", 0), Settle, Frame(Some(0), payload)][..2] == actions;
    assert actions[..1] == [Subscribe("t", 0)] && actions[..1][..0] == [];
    PanelJoinsVisible();
    var h := Joined(Empty(false), "t", 0);
    assert Run(false, actions[..1], base, cap) == Some(h);
    VisibleSettle(h);
    PanelTold(Connecting);
    var r := Reconcile(h);
    assert Run(false, actions, base, cap) == Some(r);
    StartIsLive();
    FrameReachesItsTopic(false, actions, Some(0), payload, base, cap);
  }

  lemma StartIsLive()
    ensures Start(false).0.live == {0}
  {
  }

  /** The stream a settle puts away has no live source, so the hub never holds two. */
  lemma PutAwayStreamIsDead(hidden: bool, actions: seq<Action>, base: nat, cap: nat)
    requires Run(hidden, actions, base, cap).Some? && Run(hidden, actions, base, cap).value.stream.Some?
    ensures var stream := Run(hidden, actions, base, cap).value.stream.value;
            |stream.live| <= 1 && Do(stream, Dispose, base, cap).0.live == {}
  {
    hide Run, NamesFit, Agrees, SeenFits;
    RunKeepsInv(hidden, actions, base, cap);
    var stream := Run(hidden, actions, base, cap).value.stream.value;
    EventKeepsInv(stream, Dispose, base, cap);
  }

  // ---- the code ----

  method TellAll(names: seq<string>, topics: map<string, Topic>, connected: bool, connection: Status)
    returns (told: map<string, Topic>)
    requires Distinct(names) && Elements(names) == topics.Keys
    ensures told == Told(topics, connected, connection)
  {
    hide Tell, Stand;
    forall j | 0 <= j < |names| ensures names[j] in topics { assert names[j] in Elements(names); }
    told := topics;
    var i := 0;
    while i < |names|
      invariant 0 <= i <= |names| && told.Keys == topics.Keys
      invariant forall j | 0 <= j < i :: told[names[j]] == Tell(topics[names[j]], Stand(connected, connection, topics[names[j]]))
      invariant forall j | i <= j < |names| :: told[names[j]] == topics[names[j]]
    {
      var topic := told[names[i]];
      told := told[names[i] := Tell(topic, Stand(connected, connection, topic))];
      i := i + 1;
    }
    forall n | n in topics ensures told[n] == Tell(topics[n], Stand(connected, connection, topics[n])) {
      assert n in Elements(names);
    }
  }

  /** The captured variables of one `createStreamHub` call. */
  class Multiplexer {
    var names: seq<string>
    var topics: map<string, Topic>
    var connected: seq<string>
    var connection: Status
    var dispose: Connection?
    var settling: bool
    var hidden: bool
    ghost var carries: seq<string>

    ghost function Snapshot(): Hub
      reads this, dispose
    {
      Hub(names, topics, connected, connection, if dispose == null then None else Some(dispose.Snapshot()),
          carries, settling, hidden)
    }

    ghost predicate Valid()
      reads this, dispose
    {
      NamesFit(Snapshot())
    }

    constructor (documentHidden: bool)
      ensures Valid() && Snapshot() == Empty(documentHidden)
    {
      names, topics, connected, connection, dispose, settling := [], map[], [], Closed, null, false;
      hidden, carries := documentHidden, [];
    }

    method SubscribeTo(name: string, sub: nat)
      requires Valid()
      modifies this
      ensures dispose == old(dispose) && Snapshot() == Joined(old(Snapshot()), name, sub)
    {
      var topic := Topic(None, Connecting, map[]);
      if name in topics {
        topic := topics[name];
      } else {
        names := names + [name];
      }
      if name !in connected || dispose == null { settling := true; }
      var status := Stand(dispose != null, connection, topic);
      var frames := if sub in topic.subs then topic.subs[sub].frames else [];
      if topic.last.Some? { frames := frames + [topic.last.value]; }
      topics := topics[name := topic.(subs := topic.subs[sub := Seen(status, frames)])];
    }

    method UnsubscribeFrom(name: string, sub: nat)
      modifies this
      ensures dispose == old(dispose) && Snapshot() == Left(old(Snapshot()), name, sub)
    {
      if name in topics && sub in topics[name].subs {
        topics := topics[name := topics[name].(subs := topics[name].subs - {sub})];
        settling := true;
      }
    }

    method OnMessage(index: Option<nat>, payload: string)
      modifies this
      ensures dispose == old(dispose) && Snapshot() == Receive(old(Snapshot()), index, payload)
    {
      if index.None? || index.value >= |connected| || connected[index.value] !in topics { return; }
      var name := connected[index.value];
      var topic := topics[name];
      var state := if payload == "!" then Retrying else Open;
      if topic.state != state {
        topic := topic.(state := state);
        topic := Tell(topic, Stand(dispose != null, connection, topic));
      }
      topics := topics[name := topic];
      if payload == "!" || payload == "+" { return; }
      topics := topics[name := Deliver(topic, payload)];
    }

    /** The hub's `onStatus`: a loop over the topics. */
    method OnStatus(status: Status)
      requires Valid()
      modifies this`connection, this`topics
      ensures Snapshot() == Report(old(Snapshot()), status)
    {
      connection := status;
      topics := TellAll(names, topics, dispose != null, status);
    }

    /** The deletions at the head of `reconcile`: topics nobody is subscribed to go. */
    method DropUnsubscribed()
      requires Distinct(names) && Elements(names) == topics.Keys
      modifies this`names, this`topics
      ensures names == Wanted(old(names), old(topics)) && topics == Pruned(old(topics))
    {
      hide Elements;
      var order, was := names, topics;
      var wanted := [];
      var i := 0;
      assert order[0..] == order;
      assert topics == KeptOr(was, Elements(order[i..]));
      while i < |order|
        invariant 0 <= i <= |order| && wanted == Wanted(order[..i], was)
        invariant Elements(order[i..]) <= was.Keys && topics == KeptOr(was, Elements(order[i..]))
      {
        NamesHead(order, i);
        assert order[..i + 1][..i] == order[..i];
        if topics[order[i]].subs == map[] {
          topics := topics - {order[i]};
        } else {
          wanted := wanted + [order[i]];
        }
        i := i + 1;
      }
      assert order[..i] == order && order[i..] == [];
      assert Elements<string>([]) == {} by { NothingNamed(); }
      names := wanted;
    }

    /** `connectStream` and the assignment of its result. */
    method Connect()
      requires Valid() && dispose == null
      modifies this`dispose, this`connection, this`topics
      ensures dispose != null && !dispose.disposed
      ensures var (stream, status) := Start(hidden);
              Snapshot() == ReportIfAny(old(Snapshot()), status).(stream := Some(stream))
    {
      var stream := new Connection(hidden);
      var status := stream.OpenIfIdle();
      if status.Some? { OnStatus(status.value); }
      dispose := stream;
    }

    method Settled()
      requires Valid() && (dispose != null ==> !dispose.disposed)
      modifies this, dispose
      ensures Snapshot() == Reconcile(old(Snapshot())) && (dispose != null ==> !dispose.disposed)
      ensures old(dispose) != null && dispose != old(dispose) ==> old(dispose).disposed
    {
      hide Wanted, Pruned, Restarted, Elements, Distinct, Start, ReportIfAny;
      ghost var before := Snapshot();
      settling := false;
      CutNames(before);
      DropUnsubscribed();
      if SameSet(names, connected) && dispose != null { return; }
      if dispose != null { dispose.DisposeNow(); }
      dispose := null;
      connected, carries := names, names;
      topics := Restarted(topics);
      if names == [] {
        connection := Closed;
      } else {
        assert Snapshot() == Hub(names, topics, names, connection, None, names, false, hidden);
        Connect();
      }
    }
  }
}
