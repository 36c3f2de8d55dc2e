/**
 The folio close sweep: any number of sweeps select closed folios whose marker differs from their closing
 time, publish one message per closing to every enabled partner, and then set the marker, while folios are
 reopened and closed again, partners come and go, and sweeps die anywhere. One tenant; every database
 operation is one step. The bus has its unique index on (message, partner).
 */
module FolioSweep {
  import opened Options

  type FolioId = string
  type Partner = string

  /** A stored closing time: a text, a date that is read as its ISO text, or null. */
  datatype Raw = Null | Text(text: string) | Date(iso: string)

  datatype Folio = Folio(closed: bool, closedAt: Option<Raw>, marker: Option<Raw>)
  datatype Delivery = Delivery(message: string, partner: Partner)

  datatype Pc =
    | Idle
    | Publishing(folio: FolioId, at: Raw)
    | Sending(folio: FolioId, at: Raw, read: set<Partner>, left: set<Partner>)
    | Marking(folio: FolioId, at: Raw, read: set<Partner>)

  /** A marker write that matched its folio, and the partners the publication before it had found. */
  datatype Mark = Mark(folio: FolioId, at: Raw, read: set<Partner>)

  /** `closings` and `marks` are history: what was ever closed when, and which markers were set. */
  datatype State = State(
    folios: map<FolioId, Folio>,
    partners: set<Partner>,
    deliveries: seq<Delivery>,
    workers: map<nat, Pc>,
    closings: set<(FolioId, Raw)>,
    marks: seq<Mark>)

  datatype Action =
    | Close(folio: FolioId, at: Raw)
    | Reopen(folio: FolioId, closedAt: Option<Raw>)
    | Enable(partner: Partner)
    | Disable(partner: Partner)
    | Pick(worker: nat, folio: FolioId)
    | ReadPartners(worker: nat)
    | Send(worker: nat, partner: Partner)
    | SetMarker(worker: nat)
    | Crash(worker: nat)

  /** How a closing time is parsed, and the watermark from which closings are published. */
  datatype Config = Config(parse: string -> Option<int>, watermark: int)

  // ---------- messages ----------

  const EVENT_NAME: string := "folio.closed.v1"

  function Norm(at: Raw): string {
    match at
    case Null => ""
    case Text(text) => text
    case Date(iso) => iso
  }

  function MessageId(folio: FolioId, at: Raw): string {
    EVENT_NAME + ":" + folio + ":" + Norm(at)
  }

  /** One message id per folio and closing text, when folio ids hold no colon. */
  lemma MessageIdsDiffer(f: FolioId, a: Raw, g: FolioId, b: Raw)
    requires ':' !in f && ':' !in g
    ensures MessageId(f, a) == MessageId(g, b) <==> f == g && Norm(a) == Norm(b)
  {
    if MessageId(f, a) == MessageId(g, b) {
      AfterColon(f, a);
      AfterColon(g, b);
    }
  }

  function BeforeColon(s: string): string {
    if s == "" || s[0] == ':' then "" else [s[0]] + BeforeColon(s[1..])
  }

  lemma {:induction false} BeforeColonIs(f: string, rest: string)
    requires ':' !in f
    ensures BeforeColon(f + ":" + rest) == f
  {
    var s := f + ":" + rest;
    if f != "" {
      assert s[1..] == f[1..] + ":" + rest;
      BeforeColonIs(f[1..], rest);
    }
  }

  lemma AfterColon(f: FolioId, a: Raw)
    requires ':' !in f
    ensures BeforeColon(MessageId(f, a)[|EVENT_NAME| + 1..]) == f
    ensures MessageId(f, a)[|EVENT_NAME| + 1 + |f| + 1..] == Norm(a)
  {
    BeforeColonIs(f, Norm(a));
    assert MessageId(f, a)[|EVENT_NAME| + 1..] == f + ":" + Norm(a);
  }

  /** One id extends the other by a colon and more, and the closing text of the other makes up for it. */
  ghost predicate Shifted(f: FolioId, a: Raw, g: FolioId, b: Raw) {
    exists x: string :: g == f + ":" + x && Norm(a) == x + ":" + Norm(b)
  }

  lemma SuffixOf(f: FolioId, a: Raw)
    ensures MessageId(f, a)[|EVENT_NAME| + 1..] == f + ":" + Norm(a)
  {
    assert MessageId(f, a) == EVENT_NAME + ":" + (f + ":" + Norm(a));
  }

  lemma LongerIdIsShifted(f: FolioId, a: Raw, g: FolioId, b: Raw)
    requires f + ":" + Norm(a) == g + ":" + Norm(b) && |f| < |g|
    ensures Shifted(f, a, g, b)
  {
    var s := f + ":" + Norm(a);
    var x := g[|f| + 1..];
    assert s[..|f|] == f == g[..|f|] && s[|f|] == ':' == g[|f|];
    assert g == f + ":" + x;
    assert s[|f| + 1..] == Norm(a) && (g + ":" + Norm(b))[|f| + 1..] == x + ":" + Norm(b);
  }

  /** Exactly when two closings have one message id: they are equal, or one is the other shifted. */
  lemma MessageIdsCollide(f: FolioId, a: Raw, g: FolioId, b: Raw)
    ensures MessageId(f, a) == MessageId(g, b) <==>
            (f == g && Norm(a) == Norm(b)) || Shifted(f, a, g, b) || Shifted(g, b, f, a)
  {
    SuffixOf(f, a);
    SuffixOf(g, b);
    if MessageId(f, a) == MessageId(g, b) {
      var s, t := f + ":" + Norm(a), g + ":" + Norm(b);
      if |f| == |g| {
        assert s[..|f|] == f && t[..|g|] == g && s[|f| + 1..] == Norm(a) && t[|g| + 1..] == Norm(b);
      } else if |f| < |g| {
        LongerIdIsShifted(f, a, g, b);
      } else {
        LongerIdIsShifted(g, b, f, a);
      }
    } else {
      forall x: string
        ensures !(g == f + ":" + x && Norm(a) == x + ":" + Norm(b))
        ensures !(f == g + ":" + x && Norm(b) == x + ":" + Norm(a))
      {
        SameShift(f, x, Norm(b));
        SameShift(g, x, Norm(a));
      }
    }
  }

  lemma SameShift(f: string, x: string, b: string)
    ensures EVENT_NAME + ":" + f + ":" + (x + ":" + b) == EVENT_NAME + ":" + (f + ":" + x) + ":" + b
  {
  }

  // ---------- steps ----------

  /** The sweep's query: closed, a closing time is stored, and the marker is missing or another one. */
  predicate Selected(f: Folio) {
    f.closed && f.closedAt.Some? && f.marker != f.closedAt
  }

  predicate Emits(config: Config, at: Raw) {
    var parsed := if Norm(at) == "" then None else config.parse(Norm(at));
    parsed.Some? && parsed.value >= config.watermark
  }

  /** The stored text is not empty and is a time at or after the watermark. */
  ghost predicate FromWatermark(config: Config, at: Raw) {
    exists text: string ::
      && (at == Text(text) || at == Date(text)) && text != ""
      && config.parse(text).Some? && config.watermark <= config.parse(text).value
  }

  /** The sweep publishes exactly such closings; all others it only marks. */
  lemma EmitsFromWatermark(config: Config, at: Raw)
    ensures Emits(config, at) <==> FromWatermark(config, at)
  {
    if Emits(config, at) {
      assert config.parse(Norm(at)).Some?;
    }
  }

  function PcOf(s: State, worker: nat): Pc {
    if worker in s.workers then s.workers[worker] else Idle
  }

  function Moved(s: State, worker: nat, pc: Pc): State {
    s.(workers := s.workers[worker := pc])
  }

  function Inserted(deliveries: seq<Delivery>, d: Delivery): seq<Delivery> {
    if d in deliveries then deliveries else deliveries + [d]
  }

  function AfterPick(config: Config, s: State, worker: nat, id: FolioId): State {
    if PcOf(s, worker) == Idle && id in s.folios && Selected(s.folios[id]) then
      var at := s.folios[id].closedAt.value;
      Moved(s, worker, if Emits(config, at) then Publishing(id, at) else Marking(id, at, {}))
    else s
  }

  function AfterSend(s: State, worker: nat, partner: Partner): State {
    match PcOf(s, worker)
    case Sending(id, at, read, left) =>
      if partner in left then
        var rest := left - {partner};
        Moved(s.(deliveries := Inserted(s.deliveries, Delivery(MessageId(id, at), partner))), worker,
              if rest == {} then Marking(id, at, read) else Sending(id, at, read, rest))
      else s
    case _ => s
  }

  function AfterMark(s: State, worker: nat): State {
    match PcOf(s, worker)
    case Marking(id, at, read) =>
      var done := Moved(s, worker, Idle);
      if id in s.folios && s.folios[id].closed && s.folios[id].closedAt == Some(at)
      then done.(folios := s.folios[id := s.folios[id].(marker := Some(at))], marks := s.marks + [Mark(id, at, read)])
      else done
    case _ => s
  }

  function Next(config: Config, s: State, a: Action): State {
    match a
    case Close(id, at) =>
      s.(folios := s.folios[id := Folio(true, Some(at), if id in s.folios then s.folios[id].marker else None)],
         closings := s.closings + {(id, at)})
    case Reopen(id, closedAt) =>
      if id in s.folios then s.(folios := s.folios[id := s.folios[id].(closed := false, closedAt := closedAt)]) else s
    case Enable(partner) => s.(partners := s.partners + {partner})
    case Disable(partner) => s.(partners := s.partners - {partner})
    case Pick(worker, id) => AfterPick(config, s, worker, id)
    case ReadPartners(worker) =>
      (match PcOf(s, worker)
       case Publishing(id, at) =>
         Moved(s, worker, if s.partners == {} then Marking(id, at, {}) else Sending(id, at, s.partners, s.partners))
       case _ => s)
    case Send(worker, partner) => AfterSend(s, worker, partner)
    case SetMarker(worker) => AfterMark(s, worker)
    case Crash(worker) => Moved(s, worker, Idle)
  }

  function Exec(config: Config, s: State, actions: seq<Action>): State
    decreases |actions|
  {
    if actions == [] then s else Exec(config, Next(config, s, actions[0]), actions[1..])
  }

  /** Before the first sweep: nothing published, nothing marked, no sweep at work. */
  predicate Initial(s: State) {
    && s.deliveries == [] && s.marks == [] && s.workers == map[]
    && (forall id | id in s.folios :: s.folios[id].marker.None?)
    && (forall id | id in s.folios && s.folios[id].closed && s.folios[id].closedAt.Some? ::
          (id, s.folios[id].closedAt.value) in s.closings)
  }

  // ---------- the invariant ----------

  predicate Sent(s: State, id: FolioId, at: Raw, partners: set<Partner>) {
    forall p | p in partners :: Delivery(MessageId(id, at), p) in s.deliveries
  }

  ghost predicate PcOk(config: Config, s: State, pc: Pc) {
    match pc
    case Idle => true
    case Publishing(id, at) => FromWatermark(config, at) && (id, at) in s.closings
    case Sending(id, at, read, left) =>
      FromWatermark(config, at) && (id, at) in s.closings && left != {} && left <= read && Sent(s, id, at, read - left)
    case Marking(id, at, read) => Sent(s, id, at, read)
  }

  ghost predicate WorkersOk(config: Config, s: State) {
    forall w | w in s.workers :: PcOk(config, s, s.workers[w])
  }

  predicate MarksOk(s: State) {
    forall m | m in s.marks :: Sent(s, m.folio, m.at, m.read)
  }

  predicate MarkersOk(s: State) {
    forall id | id in s.folios && s.folios[id].marker.Some? :: HasMark(s, id, s.folios[id].marker.value)
  }

  predicate HasMark(s: State, id: FolioId, at: Raw) {
    exists m :: m in s.marks && m.folio == id && m.at == at
  }

  predicate ClosingsOk(s: State) {
    forall id | id in s.folios && s.folios[id].closed && s.folios[id].closedAt.Some? ::
      (id, s.folios[id].closedAt.value) in s.closings
  }

  ghost predicate DeliveriesOk(config: Config, s: State) {
    && (forall i, j | 0 <= i < j < |s.deliveries| :: s.deliveries[i] != s.deliveries[j])
    && (forall d | d in s.deliveries :: FromClosing(config, s.closings, d.message))
  }

  ghost predicate FromClosing(config: Config, closings: set<(FolioId, Raw)>, message: string) {
    exists c :: c in closings && FromWatermark(config, c.1) && message == MessageId(c.0, c.1)
  }

  ghost predicate Sound(config: Config, s: State) {
    WorkersOk(config, s) && MarksOk(s) && MarkersOk(s) && ClosingsOk(s) && DeliveriesOk(config, s)
  }

  predicate InBus(s: State, id: FolioId, at: Raw) {
    exists d :: d in s.deliveries && d.message == MessageId(id, at)
  }

  /** A sweep about to mark a due closing, and every mark of one, has its message in the bus. */
  ghost predicate Heard(config: Config, s: State) {
    && (forall w | w in s.workers && s.workers[w].Marking? && FromWatermark(config, s.workers[w].at) ::
          InBus(s, s.workers[w].folio, s.workers[w].at))
    && (forall m | m in s.marks && FromWatermark(config, m.at) :: InBus(s, m.folio, m.at))
  }

  /** A step that is not a publication to nobody of something nobody was told before. */
  predicate Loud(s: State, a: Action) {
    a.ReadPartners? && PcOf(s, a.worker).Publishing? && s.partners == {} ==>
      InBus(s, PcOf(s, a.worker).folio, PcOf(s, a.worker).at)
  }

  predicate LoudRun(config: Config, s: State, actions: seq<Action>)
    decreases |actions|
  {
    actions == [] || (Loud(s, actions[0]) && LoudRun(config, Next(config, s, actions[0]), actions[1..]))
  }

  // ---------- every step keeps it ----------

  /** What no step takes back. */
  predicate Grows(s: State, t: State) {
    && (forall d | d in s.deliveries :: d in t.deliveries)
    && s.closings <= t.closings
    && (forall m | m in s.marks :: m in t.marks)
  }

  lemma PcStays(config: Config, s: State, t: State, pc: Pc)
    requires Grows(s, t) && PcOk(config, s, pc)
    ensures PcOk(config, t, pc)
  {
  }

  lemma MovedKeepsWorkers(config: Config, s: State, t: State, worker: nat, pc: Pc)
    requires WorkersOk(config, s) && Grows(s, t) && t.workers == s.workers[worker := pc] && PcOk(config, t, pc)
    ensures WorkersOk(config, t)
  {
    forall w | w in t.workers
      ensures PcOk(config, t, t.workers[w])
    {
      if w != worker {
        PcStays(config, s, t, s.workers[w]);
      }
    }
  }

  lemma NextGrows(config: Config, s: State, a: Action)
    ensures Grows(s, Next(config, s, a))
  {
  }

  lemma NextKeepsWorkers(config: Config, s: State, a: Action)
    requires Sound(config, s)
    ensures WorkersOk(config, Next(config, s, a))
  {
    var t := Next(config, s, a);
    NextGrows(config, s, a);
    hide Grows, FromWatermark, MessageId;
    if t.workers != s.workers {
      var worker := a.worker;
      MovedPc(config, s, a);
      MovedKeepsWorkers(config, s, t, worker, t.workers[worker]);
    } else {
      forall w | w in t.workers
        ensures PcOk(config, t, t.workers[w])
      {
        PcStays(config, s, t, s.workers[w]);
      }
    }
  }

  /** The step of a sweep leaves that sweep in order. */
  lemma MovedPc(config: Config, s: State, a: Action)
    requires Sound(config, s)
    ensures var t := Next(config, s, a);
            t.workers == s.workers
            || ((a.Pick? || a.ReadPartners? || a.Send? || a.SetMarker? || a.Crash?)
                && a.worker in t.workers && t.workers == s.workers[a.worker := t.workers[a.worker]]
                && PcOk(config, t, t.workers[a.worker]))
  {
    hide Emits, FromWatermark, MessageId;
    if a.Send? && PcOf(s, a.worker).Sending? && a.partner in PcOf(s, a.worker).left {
      SendPc(config, s, a.worker, a.partner);
    } else if a.Pick? && a.folio in s.folios && Selected(s.folios[a.folio]) {
      EmitsFromWatermark(config, s.folios[a.folio].closedAt.value);
    }
  }

  lemma SendPc(config: Config, s: State, worker: nat, partner: Partner)
    requires Sound(config, s)
    requires PcOf(s, worker).Sending? && partner in PcOf(s, worker).left
    ensures worker in AfterSend(s, worker, partner).workers
    ensures var t := AfterSend(s, worker, partner);
            t.workers == s.workers[worker := t.workers[worker]] && PcOk(config, t, t.workers[worker])
  {
    hide FromWatermark, MessageId;
    var t := AfterSend(s, worker, partner);
    var pc := PcOf(s, worker);
    assert PcOk(config, s, s.workers[worker]);
    forall p | p in pc.read - (pc.left - {partner})
      ensures Delivery(MessageId(pc.folio, pc.at), p) in t.deliveries
    {
      assert p == partner || p in pc.read - pc.left;
    }
  }

  lemma NextKeepsMarks(config: Config, s: State, a: Action)
    requires Sound(config, s)
    ensures MarksOk(Next(config, s, a)) && MarkersOk(Next(config, s, a)) && ClosingsOk(Next(config, s, a))
  {
    var t := Next(config, s, a);
    NextGrows(config, s, a);
    hide FromWatermark, MessageId;
    forall m | m in t.marks
      ensures Sent(t, m.folio, m.at, m.read)
    {
      if m !in s.marks {
        assert PcOk(config, s, PcOf(s, a.worker));
      }
    }
    forall id | id in t.folios && t.folios[id].marker.Some?
      ensures HasMark(t, id, t.folios[id].marker.value)
    {
      MarkerStep(config, s, a, id);
    }
  }

  lemma MarkerStep(config: Config, s: State, a: Action, id: FolioId)
    requires MarkersOk(s)
    requires id in Next(config, s, a).folios && Next(config, s, a).folios[id].marker.Some?
    ensures HasMark(Next(config, s, a), id, Next(config, s, a).folios[id].marker.value)
  {
    var t := Next(config, s, a);
    hide FromWatermark, MessageId;
    if id in s.folios && s.folios[id].marker == t.folios[id].marker {
      var m :| m in s.marks && m.folio == id && m.at == s.folios[id].marker.value;
      assert m in t.marks;
    } else {
      var pc := PcOf(s, a.worker);
      assert Mark(pc.folio, pc.at, pc.read) in t.marks;
    }
  }

  lemma NextKeepsDeliveries(config: Config, s: State, a: Action)
    requires Sound(config, s)
    ensures DeliveriesOk(config, Next(config, s, a))
  {
    var t := Next(config, s, a);
    forall d | d in t.deliveries
      ensures FromClosing(config, t.closings, d.message)
    {
      DeliveryStep(config, s, a, d);
    }
  }

  lemma DeliveryStep(config: Config, s: State, a: Action, d: Delivery)
    requires Sound(config, s) && d in Next(config, s, a).deliveries
    ensures FromClosing(config, Next(config, s, a).closings, d.message)
  {
    var t := Next(config, s, a);
    hide FromWatermark, MessageId;
    if d in s.deliveries {
      var c :| c in s.closings && FromWatermark(config, c.1) && d.message == MessageId(c.0, c.1);
      assert c in t.closings;
    } else {
      var pc := PcOf(s, a.worker);
      assert PcOk(config, s, pc);
      assert (pc.folio, pc.at) in t.closings;
    }
  }

  lemma NextKeepsSound(config: Config, s: State, a: Action)
    requires Sound(config, s)
    ensures Sound(config, Next(config, s, a))
  {
    NextKeepsWorkers(config, s, a);
    NextKeepsMarks(config, s, a);
    NextKeepsDeliveries(config, s, a);
  }

  lemma StaysInBus(s: State, t: State, id: FolioId, at: Raw)
    requires Grows(s, t) && InBus(s, id, at)
    ensures InBus(t, id, at)
  {
    var d :| d in s.deliveries && d.message == MessageId(id, at);
    assert d in t.deliveries;
  }

  /** What a step brings a sweep to mark is in the bus, or was about to be marked before. */
  lemma NewMarking(config: Config, s: State, a: Action, w: nat)
    requires Sound(config, s) && Heard(config, s) && Loud(s, a)
    requires w in Next(config, s, a).workers && Next(config, s, a).workers[w].Marking?
    ensures var t := Next(config, s, a);
            FromWatermark(config, t.workers[w].at) ==> InBus(t, t.workers[w].folio, t.workers[w].at)
  {
    var t := Next(config, s, a);
    NextGrows(config, s, a);
    hide Emits, FromWatermark, MessageId, Grows;
    var pc := t.workers[w];
    EmitsFromWatermark(config, pc.at);
    if FromWatermark(config, pc.at) {
      if w in s.workers && s.workers[w] == pc {
        StaysInBus(s, t, pc.folio, pc.at);
      } else if a.Send? {
        assert Delivery(MessageId(pc.folio, pc.at), a.partner) in t.deliveries;
      } else if InBus(s, pc.folio, pc.at) {
        StaysInBus(s, t, pc.folio, pc.at);
      }
    }
  }

  lemma LoudKeepsHeard(config: Config, s: State, a: Action)
    requires Sound(config, s) && Heard(config, s) && Loud(s, a)
    ensures Heard(config, Next(config, s, a))
  {
    var t := Next(config, s, a);
    forall w | w in t.workers && t.workers[w].Marking? && FromWatermark(config, t.workers[w].at)
      ensures InBus(t, t.workers[w].folio, t.workers[w].at)
    {
      NewMarking(config, s, a, w);
    }
    NextGrows(config, s, a);
    hide FromWatermark, MessageId, Grows, InBus;
    forall m | m in t.marks && FromWatermark(config, m.at)
      ensures InBus(t, m.folio, m.at)
    {
      if m !in s.marks {
        assert PcOf(s, a.worker) == Marking(m.folio, m.at, m.read);
      }
      StaysInBus(s, t, m.folio, m.at);
    }
  }

  lemma {:induction false} RunKeepsSound(config: Config, s: State, actions: seq<Action>)
    requires Sound(config, s)
    ensures Sound(config, Exec(config, s, actions))
    ensures Heard(config, s) && LoudRun(config, s, actions) ==> Heard(config, Exec(config, s, actions))
    decreases |actions|
  {
    if actions != [] {
      NextKeepsSound(config, s, actions[0]);
      if Heard(config, s) && Loud(s, actions[0]) {
        LoudKeepsHeard(config, s, actions[0]);
      }
      RunKeepsSound(config, Next(config, s, actions[0]), actions[1..]);
    }
  }

  // ---------- what it means ----------

  /** A marker from the watermark on means that its message is in the bus. */
  ghost predicate MarkersMean(config: Config, s: State) {
    forall id | id in s.folios && s.folios[id].marker.Some? && FromWatermark(config, s.folios[id].marker.value) ::
      InBus(s, id, s.folios[id].marker.value)
  }

  lemma HeardMarkersMean(config: Config, s: State)
    requires Sound(config, s) && Heard(config, s)
    ensures MarkersMean(config, s)
  {
    hide FromWatermark, InBus;
    forall id | id in s.folios && s.folios[id].marker.Some? && FromWatermark(config, s.folios[id].marker.value)
      ensures InBus(s, id, s.folios[id].marker.value)
    {
      assert HasMark(s, id, s.folios[id].marker.value);
    }
  }

  /**
   Emit then mark: however sweeps, crashes, reopenings and closings interleave, a marker on a closing at or
   after the watermark means that the message is in the bus. Hence a closed folio whose message is not in
   the bus is still selected.
   */
  lemma UnpublishedIsSelected(config: Config, s: State, actions: seq<Action>, id: FolioId)
    requires Initial(s) && LoudRun(config, s, actions)
    requires id in Exec(config, s, actions).folios
    ensures var t := Exec(config, s, actions);
            var f := t.folios[id];
            && MarkersMean(config, t)
            && (f.closed && f.closedAt.Some? && FromWatermark(config, f.closedAt.value) && !InBus(t, id, f.closedAt.value)
                ==> Selected(f))
  {
    RunKeepsSound(config, s, actions);
    HeardMarkersMean(config, Exec(config, s, actions));
  }

  /** Publishing again adds nothing: every message is in the bus at most once per partner, and only closings from the watermark on are there. */
  lemma OneMessagePerClosing(config: Config, s: State, actions: seq<Action>)
    requires Initial(s)
    ensures var t := Exec(config, s, actions);
            && (forall i, j | 0 <= i < j < |t.deliveries| :: t.deliveries[i] != t.deliveries[j])
            && (forall d | d in t.deliveries :: FromClosing(config, t.closings, d.message))
  {
    RunKeepsSound(config, s, actions);
  }

  /** A reopened folio is left alone, and closed again it is selected unless that very closing is marked. */
  lemma ReclosedIsSelected(config: Config, s: State, id: FolioId, open: Option<Raw>, at: Raw)
    requires id in s.folios
    ensures var reopened := Next(config, s, Reopen(id, open));
            var reclosed := Next(config, reopened, Close(id, at));
            && id in reopened.folios && !Selected(reopened.folios[id])
            && id in reclosed.folios && (Selected(reclosed.folios[id]) <==> s.folios[id].marker != Some(at))
  {
  }

  predicate Marks(pc: Pc, id: FolioId, f: Folio) {
    pc.Marking? && pc.folio == id && f.closedAt == Some(pc.at)
  }

  /**
   A sweep changes no folio but to set the marker of a closed one to the very closing time it has; then it is
   not selected.
   */
  lemma MarkIsGuarded(config: Config, s: State, a: Action, id: FolioId)
    requires a.Pick? || a.ReadPartners? || a.Send? || a.SetMarker? || a.Crash?
    ensures var t := Next(config, s, a);
            && t.folios.Keys == s.folios.Keys
            && (id in s.folios && t.folios[id] != s.folios[id] ==>
                  s.folios[id].closed && s.folios[id].closedAt.Some? && t.folios[id] == s.folios[id].(marker := s.folios[id].closedAt))
            && (id in s.folios && a.SetMarker? && Marks(PcOf(s, a.worker), id, s.folios[id]) ==> !Selected(t.folios[id]))
  {
    hide Emits, MessageId;
  }

  /** A partner enabled before a publication reads the partners is told by it, and one disabled before is not. */
  lemma EnabledIsTold(config: Config, s: State, worker: nat, partner: Partner)
    requires PcOf(s, worker).Publishing?
    ensures var read := Next(config, Next(config, s, Enable(partner)), ReadPartners(worker));
            Delivery(MessageId(PcOf(s, worker).folio, PcOf(s, worker).at), partner)
            in Next(config, read, Send(worker, partner)).deliveries
    ensures var read := Next(config, Next(config, s, Disable(partner)), ReadPartners(worker));
            && PcOf(read, worker).folio == PcOf(s, worker).folio
            && (PcOf(read, worker).Sending? ==> partner !in PcOf(read, worker).left)
            && Next(config, read, Send(worker, partner)) == read
  {
    hide MessageId;
  }

  /** A sweep that dies forgets its folio and changes nothing else: any sweep at rest can take up a selected folio. */
  lemma CrashedIsTakenUp(config: Config, s: State, worker: nat, id: FolioId)
    requires id in s.folios && Selected(s.folios[id])
    ensures var t := Next(config, s, Crash(worker));
            && t.folios == s.folios && t.deliveries == s.deliveries && t.partners == s.partners
            && var at, pc := s.folios[id].closedAt.value, PcOf(Next(config, t, Pick(worker, id)), worker);
               pc == if FromWatermark(config, at) then Publishing(id, at) else Marking(id, at, {})
  {
    EmitsFromWatermark(config, s.folios[id].closedAt.value);
  }

  /** Whatever loud steps follow, markers mean what they say. */
  ghost predicate SafeFrom(config: Config, s: State) {
    forall actions | LoudRun(config, s, actions) :: MarkersMean(config, Exec(config, s, actions))
  }

  /** A silent publication of something nobody was told: the closing can be marked although its message is not in the bus. */
  lemma SilentPublicationIsLost(config: Config, s: State, worker: nat)
    requires Sound(config, s) && !Loud(s, ReadPartners(worker))
    ensures !SafeFrom(config, Next(config, s, ReadPartners(worker)))
  {
    var id, at := PcOf(s, worker).folio, PcOf(s, worker).at;
    var t := Next(config, s, ReadPartners(worker));
    var closed := Next(config, t, Close(id, at));
    var marked := Next(config, closed, SetMarker(worker));
    var actions := [Close(id, at), SetMarker(worker)];
    assert actions[1..] == [SetMarker(worker)] && actions[1..][1..] == [];
    assert Exec(config, closed, actions[1..]) == Exec(config, marked, []);
    assert Exec(config, t, actions) == marked && LoudRun(config, closed, actions[1..]) && LoudRun(config, t, actions);
    assert PcOk(config, s, s.workers[worker]);
    assert marked.folios[id].marker == Some(at) && !InBus(marked, id, at);
  }

  lemma {:induction false} RunSnoc(config: Config, s: State, actions: seq<Action>, a: Action)
    requires LoudRun(config, s, actions) && Loud(Exec(config, s, actions), a)
    ensures LoudRun(config, s, actions + [a]) && Exec(config, s, actions + [a]) == Next(config, Exec(config, s, actions), a)
    decreases |actions|
  {
    hide Next, Loud;
    if actions == [] {
      assert (actions + [a])[1..] == [];
    } else {
      assert (actions + [a])[1..] == actions[1..] + [a];
      RunSnoc(config, Next(config, s, actions[0]), actions[1..], a);
    }
  }

  /** Such a publication is reachable: the only partner is disabled between the sweep's query and its publication. */
  lemma SilentPublicationIsReachable(config: Config, s: State, worker: nat, id: FolioId, at: Raw, partner: Partner) returns (actions: seq<Action>)
    requires Initial(s) && s.partners <= {partner} && FromWatermark(config, at)
    ensures LoudRun(config, s, actions) && !Loud(Exec(config, s, actions), ReadPartners(worker))
    ensures !SafeFrom(config, Next(config, Exec(config, s, actions), ReadPartners(worker)))
  {
    hide LoudRun, Exec, Emits, FromWatermark, MessageId;
    EmitsFromWatermark(config, at);
    actions := [];
    assert LoudRun(config, s, []) && Exec(config, s, []) == s by { EmptyRun(config, s); }
    RunSnoc(config, s, actions, Close(id, at));
    actions := actions + [Close(id, at)];
    RunSnoc(config, s, actions, Enable(partner));
    actions := actions + [Enable(partner)];
    RunSnoc(config, s, actions, Pick(worker, id));
    actions := actions + [Pick(worker, id)];
    RunSnoc(config, s, actions, Disable(partner));
    actions := actions + [Disable(partner)];
    var t := Exec(config, s, actions);
    assert t.partners == {} && PcOf(t, worker) == Publishing(id, at) && t.deliveries == [];
    InitialIsSound(config, s);
    RunKeepsSound(config, s, actions);
    SilentPublicationIsLost(config, t, worker);
  }

  lemma EmptyRun(config: Config, s: State)
    ensures LoudRun(config, s, []) && Exec(config, s, []) == s
  {
  }

  lemma InitialIsSound(config: Config, s: State)
    requires Initial(s)
    ensures Sound(config, s)
  {
  }

  /** In a sound state a step is safe, whatever loud steps follow, exactly when it is loud. */
  lemma SafeIffLoud(config: Config, s: State, a: Action)
    requires Sound(config, s) && Heard(config, s)
    ensures SafeFrom(config, Next(config, s, a)) <==> Loud(s, a)
  {
    if Loud(s, a) {
      var t := Next(config, s, a);
      NextKeepsSound(config, s, a);
      LoudKeepsHeard(config, s, a);
      forall actions | LoudRun(config, t, actions)
        ensures MarkersMean(config, Exec(config, t, actions))
      {
        RunKeepsSound(config, t, actions);
        HeardMarkersMean(config, Exec(config, t, actions));
      }
    } else {
      SilentPublicationIsLost(config, s, a.worker);
    }
  }

  // ---------- the program ----------

  /** The folios a sweep reads, in the order the database lists them. */
  function SelectedIds(folios: map<FolioId, Folio>, order: seq<FolioId>): (ids: seq<FolioId>)
    ensures forall id :: id in ids <==> id in order && id in folios && Selected(folios[id])
  {
    if order == [] then []
    else
      var rest := SelectedIds(folios, order[..|order| - 1]);
      var id := order[|order| - 1];
      if id in folios && Selected(folios[id]) then rest + [id] else rest
  }

  /** The folios with the markers of `ids` set to their closing times. */
  function Marked(folios: map<FolioId, Folio>, ids: seq<FolioId>): map<FolioId, Folio> {
    map id | id in folios :: if id in ids then folios[id].(marker := folios[id].closedAt) else folios[id]
  }

  /** Those of them that were closed at or after the watermark. */
  ghost function DueIds(config: Config, folios: map<FolioId, Folio>, ids: seq<FolioId>): (due: seq<FolioId>)
    ensures forall id :: id in due <==> id in ids && id in folios && folios[id].closedAt.Some? && FromWatermark(config, folios[id].closedAt.value)
  {
    if ids == [] then []
    else
      var rest, id := DueIds(config, folios, ids[..|ids| - 1]), ids[|ids| - 1];
      if id in folios && folios[id].closedAt.Some? && FromWatermark(config, folios[id].closedAt.value) then rest + [id] else rest
  }

  lemma DueIdsNone(config: Config, folios: map<FolioId, Folio>)
    ensures DueIds(config, folios, []) == []
  {
  }

  lemma DueIdsNext(config: Config, folios: map<FolioId, Folio>, ids: seq<FolioId>, id: FolioId)
    requires id in folios && folios[id].closedAt.Some?
    ensures DueIds(config, folios, ids + [id]) ==
            DueIds(config, folios, ids) + (if FromWatermark(config, folios[id].closedAt.value) then [id] else [])
  {
    hide FromWatermark;
    assert (ids + [id])[..|ids|] == ids;
  }

  function Without(ids: seq<FolioId>, gone: seq<FolioId>): seq<FolioId> {
    if ids == [] then []
    else
      var rest, id := Without(ids[..|ids| - 1], gone), ids[|ids| - 1];
      if id in gone then rest else rest + [id]
  }

  lemma {:induction false} SelectedAfterwards(folios: map<FolioId, Folio>, handled: seq<FolioId>, order: seq<FolioId>)
    ensures SelectedIds(Marked(folios, handled), order) == Without(SelectedIds(folios, order), handled)
  {
    if order != [] {
      SelectedAfterwards(folios, handled, order[..|order| - 1]);
      var rest, id := SelectedIds(folios, order[..|order| - 1]), order[|order| - 1];
      assert (rest + [id])[..|rest|] == rest;
    }
  }

  lemma {:induction false} SelectedOnce(folios: map<FolioId, Folio>, order: seq<FolioId>)
    requires forall i, j | 0 <= i < j < |order| :: order[i] != order[j]
    ensures var ids := SelectedIds(folios, order); forall i, j | 0 <= i < j < |ids| :: ids[i] != ids[j]
  {
    if order != [] {
      SelectedOnce(folios, order[..|order| - 1]);
      NotYet(folios, order, |order| - 1);
    }
  }

  lemma {:induction false} WithoutPrefix(ids: seq<FolioId>, k: nat, n: nat)
    requires k <= |ids| && n <= |ids| && forall i, j | 0 <= i < j < |ids| :: ids[i] != ids[j]
    ensures Without(ids[..n], ids[..k]) == if n <= k then [] else ids[k..n]
  {
    if n > 0 {
      WithoutPrefix(ids, k, n - 1);
      assert ids[..n][..n - 1] == ids[..n - 1];
      assert ids[n - 1] in ids[..k] <==> n - 1 < k;
    }
  }

  /** After a sweep that handled the first folios of its query the next query finds exactly the others. */
  lemma NextSweepGoesOn(folios: map<FolioId, Folio>, order: seq<FolioId>, k: nat)
    requires forall i, j | 0 <= i < j < |order| :: order[i] != order[j]
    requires k <= |SelectedIds(folios, order)|
    ensures var ids := SelectedIds(folios, order); SelectedIds(Marked(folios, ids[..k]), order) == ids[k..]
  {
    hide SelectedIds, Marked, Without;
    var ids := SelectedIds(folios, order);
    SelectedOnce(folios, order);
    SelectedAfterwards(folios, ids[..k], order);
    WithoutPrefix(ids, k, |ids|);
    assert ids[..|ids|] == ids;
  }

  lemma SelectedStep(folios: map<FolioId, Folio>, order: seq<FolioId>, n: nat)
    requires n < |order|
    ensures SelectedIds(folios, order[..n + 1]) ==
            SelectedIds(folios, order[..n]) + (if order[n] in folios && Selected(folios[order[n]]) then [order[n]] else [])
  {
    assert order[..n + 1][..n] == order[..n];
  }

  lemma {:induction false} SelectedPrefix(folios: map<FolioId, Folio>, order: seq<FolioId>, n: nat)
    requires n <= |order|
    ensures SelectedIds(folios, order[..n]) <= SelectedIds(folios, order)
    decreases |order| - n
  {
    if n == |order| {
      assert order[..n] == order;
    } else {
      SelectedStep(folios, order, n);
      SelectedPrefix(folios, order, n + 1);
    }
  }

  lemma NothingMarked(folios: map<FolioId, Folio>, order: seq<FolioId>)
    ensures SelectedIds(folios, order[..0]) == [] && Marked(folios, []) == folios
  {
  }

  lemma SameSelected(folios: map<FolioId, Folio>, ids: seq<FolioId>, id: FolioId)
    requires id !in ids
    ensures id in Marked(folios, ids) <==> id in folios
    ensures id in folios ==> Marked(folios, ids)[id] == folios[id]
  {
  }

  lemma MarkedNext(folios: map<FolioId, Folio>, ids: seq<FolioId>, id: FolioId)
    requires id in folios && id !in ids
    ensures id in Marked(folios, ids) && Marked(folios, ids)[id] == folios[id]
    ensures Marked(folios, ids + [id]) == Marked(folios, ids)[id := folios[id].(marker := folios[id].closedAt)]
  {
  }

  class Sweeper {
    const config: Config
    var folios: map<FolioId, Folio>
    var partners: set<Partner>
    var deliveries: seq<Delivery>

    constructor (config: Config, folios: map<FolioId, Folio>, partners: set<Partner>, deliveries: seq<Delivery>)
      ensures this.config == config && this.folios == folios && this.partners == partners && this.deliveries == deliveries
    {
      this.config, this.folios, this.partners, this.deliveries := config, folios, partners, deliveries;
    }

    /** The bus: one insert per enabled partner; the unique index turns a repetition into nothing. */
    method Publish(message: string)
      modifies this`deliveries
      ensures old(deliveries) <= deliveries
      ensures forall d :: d in deliveries <==> d in old(deliveries) || (d.message == message && d.partner in partners)
    {
      var left := partners;
      while left != {}
        invariant left <= partners && old(deliveries) <= deliveries
        invariant forall d :: d in deliveries <==> d in old(deliveries) || (d.message == message && d.partner in partners - left)
        decreases left
      {
        var partner :| partner in left;
        deliveries := Inserted(deliveries, Delivery(message, partner));
        left := left - {partner};
      }
    }

    /** The marker write, guarded on the closing time that was read. */
    method Mark(id: FolioId, at: Raw)
      modifies this`folios
      ensures id in old(folios) && old(folios)[id].closed && old(folios)[id].closedAt == Some(at) ==>
                folios == old(folios)[id := old(folios)[id].(marker := Some(at))]
      ensures !(id in old(folios) && old(folios)[id].closed && old(folios)[id].closedAt == Some(at)) ==> folios == old(folios)
    {
      if id in folios && folios[id].closed && folios[id].closedAt == Some(at) {
        folios := folios[id := folios[id].(marker := Some(at))];
      }
    }

    /**
     A sweep nobody disturbs handles the first `batch` selected folios: each is marked; each closed at or after
     the watermark is in the bus for every partner and counted as published; all others are counted as
     tombstoned and bring nothing into the bus; and nothing else changes.
     */
    method Run(order: seq<FolioId>, batch: nat) returns (published: nat, tombstoned: nat)
      requires forall i, j | 0 <= i < j < |order| :: order[i] != order[j]
      modifies this`folios, this`deliveries
      ensures var ids := SelectedIds(old(folios), order);
              var handled := ids[..if |ids| < batch then |ids| else batch];
              && published == |DueIds(config, old(folios), handled)| && published + tombstoned == |handled|
              && folios == Marked(old(folios), handled)
              && (forall d :: d in deliveries <==> d in old(deliveries) || Due(old(folios), handled, d))
    {
      hide Emits, FromWatermark, MessageId, Due, SelectedIds, Marked, DueIds;
      ghost var before := folios;
      NothingDue(before);
      NothingMarked(before, order);
      DueIdsNone(config, before);
      published, tombstoned := 0, 0;
      var n := 0;
      ghost var ids: seq<FolioId> := [];
      while n < |order| && published + tombstoned < batch
        invariant n <= |order| && ids == SelectedIds(before, order[..n]) && |ids| == published + tombstoned <= batch
        invariant folios == Marked(before, ids) && published == |DueIds(config, before, ids)|
        invariant forall d :: d in deliveries <==> d in old(deliveries) || Due(before, ids, d)
      {
        var id := order[n];
        SelectedStep(before, order, n);
        NotYet(before, order, n);
        SameSelected(before, ids, id);
        if id in folios && Selected(folios[id]) {
          var at := folios[id].closedAt.value;
          DueNext(before, ids, id);
          DueIdsNext(config, before, ids, id);
          EmitsFromWatermark(config, at);
          if Emits(config, at) {
            Publish(MessageId(id, at));
            published := published + 1;
          } else {
            tombstoned := tombstoned + 1;
          }
          MarkedNext(before, ids, id);
          Mark(id, at);
          ids := ids + [id];
        }
        n := n + 1;
      }
      SelectedPrefix(before, order, n);
      assert n == |order| ==> order[..n] == order;
      assert SelectedIds(before, order)[..published + tombstoned] == ids;
    }

    /** A delivery that the handled folios call for. */
    ghost predicate Due(before: map<FolioId, Folio>, ids: seq<FolioId>, d: Delivery)
      reads this`partners
    {
      d.partner in partners
      && exists id :: id in ids && id in before && before[id].closedAt.Some?
                      && FromWatermark(config, before[id].closedAt.value) && d.message == MessageId(id, before[id].closedAt.value)
    }

    lemma NothingDue(before: map<FolioId, Folio>)
      ensures forall d :: !Due(before, [], d)
    {
    }

    lemma DueNext(before: map<FolioId, Folio>, ids: seq<FolioId>, id: FolioId)
      requires id in before && before[id].closedAt.Some?
      ensures forall d :: Due(before, ids + [id], d) <==>
                Due(before, ids, d)
                || (d.partner in partners && FromWatermark(config, before[id].closedAt.value)
                    && d.message == MessageId(id, before[id].closedAt.value))
    {
      hide FromWatermark, MessageId;
      forall d
        ensures Due(before, ids + [id], d) <==>
                Due(before, ids, d)
                || (d.partner in partners && FromWatermark(config, before[id].closedAt.value)
                    && d.message == MessageId(id, before[id].closedAt.value))
      {
        if Due(before, ids + [id], d) {
          var x :| x in ids + [id] && x in before && before[x].closedAt.Some?
                   && FromWatermark(config, before[x].closedAt.value) && d.message == MessageId(x, before[x].closedAt.value);
          assert x in ids || x == id;
        }
        if Due(before, ids, d) {
          var x :| x in ids && x in before && before[x].closedAt.Some?
                   && FromWatermark(config, before[x].closedAt.value) && d.message == MessageId(x, before[x].closedAt.value);
          assert x in ids + [id];
        }
        assert id in ids + [id];
      }
    }
  }

  lemma NotYet(folios: map<FolioId, Folio>, order: seq<FolioId>, n: nat)
    requires n < |order| && forall i, j | 0 <= i < j < |order| :: order[i] != order[j]
    ensures order[n] !in SelectedIds(folios, order[..n])
  {
  }
}
