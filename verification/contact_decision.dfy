/** Relay-signed contact decisions: who may act on one, and the claim, start and cancel handshake that follows. */
module ContactDecision {
  import opened Options
  import opened JsonValue

  type Key = nat

  const KIND_CONTACT_DECISION: nat := 46044
  const KIND_STREAM_MESSAGE: nat := 9
  const CLAIM_TTL: int := 300

  type Tag = seq<string>

  datatype Event = Event(id: string, kind: nat, author: Key, tags: seq<Tag>, content: string)

  /** The parsers and the signature check the agent relies on, and the identity it signs with. */
  datatype World = World(
    key: string -> Option<Key>,
    keyHex: Key -> string,
    eventId: string -> Option<string>,
    uuid: string -> Option<Uuid>,
    json: string -> Option<Json>,
    signed: Event -> bool,
    conversation: (Uuid, Event, bool) -> Uuid)

  // ---------- which tag ----------

  predicate Named(tag: Tag, name: string) {
    tag != [] && tag[0] == name
  }

  predicate ReplyTag(tag: Tag) {
    Named(tag, "e") && |tag| > 3 && tag[3] == "reply"
  }

  function Filter(p: Tag -> bool, tags: seq<Tag>): seq<Tag> {
    if tags == [] then []
    else if p(tags[0]) then [tags[0]] + Filter(p, tags[1..]) else Filter(p, tags[1..])
  }

  /** The second field of the only tag that satisfies `p`. */
  function Single(p: Tag -> bool, tags: seq<Tag>): Option<string> {
    var found := Filter(p, tags);
    if |found| == 1 && |found[0]| > 1 then Some(found[0][1]) else None
  }

  function SingleTag(event: Event, name: string): Option<string> {
    Single(tag => Named(tag, name), event.tags)
  }

  ghost predicate OnlyAt(p: Tag -> bool, tags: seq<Tag>, i: int) {
    0 <= i < |tags| && forall j :: 0 <= j < |tags| ==> (p(tags[j]) <==> j == i)
  }

  lemma {:induction false} FilterFinds(p: Tag -> bool, tags: seq<Tag>)
    ensures Filter(p, tags) == [] <==> forall j :: 0 <= j < |tags| ==> !p(tags[j])
    ensures |Filter(p, tags)| == 1 <==> exists i :: OnlyAt(p, tags, i)
    ensures forall i :: OnlyAt(p, tags, i) ==> Filter(p, tags) == [tags[i]]
    decreases |tags|
  {
    if tags != [] {
      var rest := tags[1..];
      FilterFinds(p, rest);
      assert forall j :: 0 <= j < |rest| ==> rest[j] == tags[j + 1];
      assert forall j :: 1 <= j < |tags| ==> tags[j] == rest[j - 1];
      if p(tags[0]) {
        if Filter(p, rest) == [] {
          assert OnlyAt(p, tags, 0);
        }
        forall i | OnlyAt(p, tags, i) ensures i == 0 && Filter(p, rest) == [] {
        }
      } else {
        forall i | OnlyAt(p, tags, i) ensures OnlyAt(p, rest, i - 1) {
        }
        forall i | OnlyAt(p, rest, i) ensures OnlyAt(p, tags, i + 1) {
        }
      }
    }
  }

  /** A field is found exactly when one tag, and no other, carries the name and has a second field. */
  lemma SingleMeans(p: Tag -> bool, tags: seq<Tag>, v: string)
    ensures Single(p, tags) == Some(v) <==> exists i :: OnlyAt(p, tags, i) && |tags[i]| > 1 && tags[i][1] == v
  {
    FilterFinds(p, tags);
  }

  // ---------- which decision ----------

  datatype Decision = Decision(id: string, channel: Uuid, original: string)

  function Member(content: Json, key: string): Option<string> {
    match Get(content, key)
    case Some(v) => AsStr(v)
    case None => None
  }

  /** A member of the payload and the tag it repeats. */
  predicate Agrees(content: Json, key: string, event: Event, tag: string) {
    SingleTag(event, tag).Some? && Member(content, key) == SingleTag(event, tag)
  }

  function Verified(w: World, event: Event, relaySelf: Option<string>, agent: string): Option<Decision> {
    if event.kind != KIND_CONTACT_DECISION || relaySelf.None? then None
    else if w.key(relaySelf.value) != Some(event.author) || !w.signed(event) then None
    else match w.json(event.content)
      case None => None
      case Some(content) =>
        if Get(content, "v") != Some(Num(1)) || Member(content, "outcome") != Some("routed") then None
        else if SingleTag(event, "phase") != Some("decision") then None
        else if
          || !Agrees(content, "original", event, "original") || !Agrees(content, "canvas", event, "canvas")
          || !Agrees(content, "channel", event, "h") || !Agrees(content, "contact", event, "p") then None
        else if Single(ReplyTag, event.tags) != SingleTag(event, "original") then None
        else match w.key(agent)
          case None => None
          case Some(key) =>
            if SingleTag(event, "p") != Some(w.keyHex(key)) then None
            else match w.uuid(SingleTag(event, "h").value)
              case None => None
              case Some(channel) => Some(Decision(event.id, channel, SingleTag(event, "original").value))
  }

  /** The only tag of its name, with its value. */
  ghost predicate Carries(event: Event, name: string, v: string) {
    exists i :: OnlyAt(tag => Named(tag, name), event.tags, i) && |event.tags[i]| > 1 && event.tags[i][1] == v
  }

  /** A decision counts exactly when the relay signed it as routed to this agent and every canonical tag appears
      once and says what the payload says. */
  ghost predicate Routed(w: World, event: Event, relay: string, agent: string, d: Decision, content: Json, text: string) {
    && event.kind == 46044 && w.key(relay) == Some(event.author) && w.signed(event)
    && w.json(event.content) == Some(content)
    && Get(content, "v") == Some(Num(1)) && Get(content, "outcome") == Some(Str("routed"))
    && Carries(event, "phase", "decision")
    && Carries(event, "original", d.original) && Get(content, "original") == Some(Str(d.original))
    && (exists canvas :: Carries(event, "canvas", canvas) && Get(content, "canvas") == Some(Str(canvas)))
    && Carries(event, "h", text) && Get(content, "channel") == Some(Str(text)) && w.uuid(text) == Some(d.channel)
    && (exists i :: OnlyAt(ReplyTag, event.tags, i) && event.tags[i][1] == d.original)
    && w.key(agent).Some? && Carries(event, "p", w.keyHex(w.key(agent).value))
    && Get(content, "contact") == Some(Str(w.keyHex(w.key(agent).value)))
    && d.id == event.id
  }

  lemma CarriesMeans(event: Event, name: string, v: string)
    ensures Carries(event, name, v) <==> SingleTag(event, name) == Some(v)
  {
    SingleMeans(tag => Named(tag, name), event.tags, v);
  }

  lemma ReplyMeans(event: Event, v: string)
    ensures Single(ReplyTag, event.tags) == Some(v) <==> exists i :: OnlyAt(ReplyTag, event.tags, i) && event.tags[i][1] == v
  {
    SingleMeans(ReplyTag, event.tags, v);
  }

  lemma VerifiedExactlyWhen(w: World, event: Event, relaySelf: Option<string>, agent: string, d: Decision)
    ensures Verified(w, event, relaySelf, agent) == Some(d) <==>
      relaySelf.Some? && exists content, text :: Routed(w, event, relaySelf.value, agent, d, content, text)
  {
    hide Carries, SingleTag, Single, OnlyAt;
    forall name, v ensures Carries(event, name, v) <==> SingleTag(event, name) == Some(v) {
      CarriesMeans(event, name, v);
    }
    ReplyMeans(event, d.original);
    if Verified(w, event, relaySelf, agent) == Some(d) {
      var content := w.json(event.content).value;
      var text := SingleTag(event, "h").value;
      var canvas := SingleTag(event, "canvas").value;
      assert Carries(event, "canvas", canvas);
      assert Routed(w, event, relaySelf.value, agent, d, content, text);
    }
  }

  /** Keys are printed without ambiguity. */
  ghost predicate DistinctHex(w: World) {
    forall x, y :: w.keyHex(x) == w.keyHex(y) ==> x == y
  }

  /** No two agents can act on the same decision: those that can have the same key, and read it the same way. */
  lemma OneContactPerDecision(w: World, event: Event, relay: Option<string>, other: Option<string>, a: string, b: string)
    requires Verified(w, event, relay, a).Some? && Verified(w, event, other, b).Some? && DistinctHex(w)
    ensures w.key(a).Some? && w.key(a) == w.key(b)
    ensures Verified(w, event, relay, a) == Verified(w, event, other, b)
  {
    hide SingleTag, Single;
    var x, y := w.key(a).value, w.key(b).value;
    assert w.keyHex(x) == w.keyHex(y);
  }

  // ---------- the handshake ----------

  datatype Verb = Claim | Start | Cancel

  /** What the relay answered, or that no answer came. */
  datatype Answer = Acked(accepted: bool, message: string) | Lost

  datatype Queued = Queued(conversation: Uuid, event: Event, content: string)

  datatype Effect =
    | Sent(verb: Verb, decision: string, channel: Uuid, generation: Option<int>, ttl: Option<int>, answer: Answer)
    | Pushed(item: Queued, under: int, accepted: bool)

  /** One arrival of a decision event and everything the outside world says while it is handled. */
  datatype Delivery = Delivery(
    event: Event, relaySelf: Option<string>, readable: bool, fetched: seq<Option<Event>>,
    authorized: Option<bool>, claim: Answer, start: Answer, accepted: bool, cancel: Answer, writable: bool)

  datatype State = State(claims: map<string, int>, log: seq<Effect>)

  function DigitsValue(s: string): Option<nat> {
    if s == [] || !('0' <= s[|s| - 1] <= '9') then None
    else
      var d := s[|s| - 1] as nat - '0' as nat;
      if |s| == 1 then Some(d)
      else match DigitsValue(s[..|s| - 1]) { case Some(n) => Some(10 * n + d) case None => None }
  }

  /** A signed 64-bit number in decimal. */
  function ParseI64(s: string): Option<int> {
    var sign, digits := if s != [] && s[0] == '-' then -1 else 1, if s != [] && s[0] in "+-" then s[1..] else s;
    match DigitsValue(digits)
    case None => None
    case Some(n) =>
      var v: int := sign * n;
      if -0x8000_0000_0000_0000 <= v < 0x8000_0000_0000_0000 then Some(v) else None
  }

  /** The generation a claim was granted under. */
  function Granted(a: Answer): Option<int> {
    if a.Acked? && a.accepted && "claim:" <= a.message then ParseI64(a.message[|"claim:"|..]) else None
  }

  function Print(n: nat): (t: string)
    ensures t != []
  {
    if n < 10 then ['0' + n as char] else Print(n / 10) + ['0' + (n % 10) as char]
  }

  function PrintInt(n: int): string {
    if n < 0 then "-" + Print(-n) else Print(n)
  }

  lemma {:induction false} PrintReads(n: nat)
    ensures DigitsValue(Print(n)) == Some(n) && '0' <= Print(n)[0] <= '9'
    decreases n
  {
    if n >= 10 {
      PrintReads(n / 10);
      var t := Print(n);
      assert t[..|t| - 1] == Print(n / 10) && t[0] == Print(n / 10)[0];
      assert t[|t| - 1] as nat - '0' as nat == n % 10;
    }
  }

  lemma PrintedParses(n: int)
    ensures ParseI64(PrintInt(n)) == if -0x8000_0000_0000_0000 <= n < 0x8000_0000_0000_0000 then Some(n) else None
  {
    hide Print, DigitsValue;
    if n < 0 {
      PrintReads(-n);
      assert ("-" + Print(-n))[1..] == Print(-n);
    } else {
      PrintReads(n);
    }
  }

  /** A claim granted under a printed number is granted under that number, if it fits 64 bits; one not accepted is not granted. */
  lemma GrantReads(n: int)
    ensures Granted(Acked(true, "claim:" + PrintInt(n))) ==
      if -0x8000_0000_0000_0000 <= n < 0x8000_0000_0000_0000 then Some(n) else None
    ensures Granted(Acked(false, "claim:" + PrintInt(n))) == None && Granted(Lost) == None
  {
    hide PrintInt, ParseI64;
    var m := "claim:" + PrintInt(n);
    assert m[|"claim:"|..] == PrintInt(n);
    PrintedParses(n);
  }

  predicate IsOriginal(w: World, id: string, candidate: Option<Event>) {
    candidate.Some? && candidate.value.id == id && candidate.value.kind == KIND_STREAM_MESSAGE && w.signed(candidate.value)
  }

  function FindOriginal(w: World, id: string, fetched: seq<Option<Event>>): Option<Event> {
    if fetched == [] then None
    else if IsOriginal(w, id, fetched[0]) then fetched[0] else FindOriginal(w, id, fetched[1..])
  }

  /** The decision and the message it routes, when this delivery may go on to claim it. */
  function Admitted(w: World, agent: string, s: State, d: Delivery): Option<(Decision, Event)> {
    match Verified(w, d.event, d.relaySelf, agent)
    case None => None
    case Some(decision) =>
      if d.readable && decision.id in s.claims then None
      else match w.eventId(decision.original)
        case None => None
        case Some(id) =>
          match FindOriginal(w, id, d.fetched)
          case None => None
          case Some(original) => if d.authorized.Some? then Some((decision, original)) else None
  }

  function Item(w: World, decision: Decision, original: Event, d: Delivery): Queued
    requires d.authorized.Some?
  {
    Queued(w.conversation(decision.channel, d.event, d.authorized.value), d.event, original.content)
  }

  /** What one delivery sends and pushes, in order. */
  function Effects(w: World, agent: string, s: State, d: Delivery): seq<Effect> {
    match Admitted(w, agent, s, d)
    case None => []
    case Some((decision, original)) =>
      var claim := Sent(Claim, decision.id, decision.channel, None, Some(CLAIM_TTL), d.claim);
      match Granted(d.claim)
      case None => [claim]
      case Some(g) =>
        var start := Sent(Start, decision.id, decision.channel, Some(g), None, d.start);
        var cancel := Sent(Cancel, decision.id, decision.channel, Some(g), None, d.cancel);
        var push := Pushed(Item(w, decision, original, d), g, d.accepted);
        if !(d.start.Acked? && d.start.accepted) then [claim, start, cancel]
        else if !d.accepted then [claim, start, push, cancel]
        else [claim, start, push]
  }

  predicate Queues(w: World, agent: string, s: State, d: Delivery) {
    && Admitted(w, agent, s, d).Some? && Granted(d.claim).Some?
    && d.start.Acked? && d.start.accepted && d.accepted
  }

  function Deliver(w: World, agent: string, s: State, d: Delivery): State {
    State(
      if Queues(w, agent, s, d) && d.writable then s.claims[d.event.id := Granted(d.claim).value] else s.claims,
      s.log + Effects(w, agent, s, d))
  }

  function Run(w: World, agent: string, ds: seq<Delivery>): State {
    if ds == [] then State(map[], [])
    else Deliver(w, agent, Run(w, agent, ds[..|ds| - 1]), ds[|ds| - 1])
  }

  lemma AdmittedKeepsId(w: World, agent: string, s: State, d: Delivery)
    ensures Admitted(w, agent, s, d).Some? ==>
      Verified(w, d.event, d.relaySelf, agent) == Some(Admitted(w, agent, s, d).value.0)
      && Admitted(w, agent, s, d).value.0.id == d.event.id
  {
    hide SingleTag, Single, FindOriginal;
  }

  lemma {:induction false} OriginalIsGenuine(w: World, id: string, fetched: seq<Option<Event>>)
    ensures FindOriginal(w, id, fetched).Some? <==> exists i :: 0 <= i < |fetched| && IsOriginal(w, id, fetched[i])
    ensures FindOriginal(w, id, fetched).Some? ==>
      FindOriginal(w, id, fetched) in fetched && IsOriginal(w, id, FindOriginal(w, id, fetched))
    decreases |fetched|
  {
    if fetched != [] {
      OriginalIsGenuine(w, id, fetched[1..]);
      assert forall i :: 1 <= i < |fetched| ==> fetched[i] == fetched[1..][i - 1];
    }
  }

  // ---------- what every log keeps ----------

  predicate IsGrant(e: Effect, d: string, g: int) {
    e.Sent? && e.verb == Claim && e.decision == d && Granted(e.answer) == Some(g)
  }

  predicate IsStart(e: Effect, d: string, g: int) {
    e.Sent? && e.verb == Start && e.decision == d && e.generation == Some(g)
  }

  predicate Begun(e: Effect, d: string, g: int) {
    IsStart(e, d, g) && e.answer.Acked? && e.answer.accepted
  }

  predicate IsCancel(e: Effect, d: string, g: int) {
    e.Sent? && e.verb == Cancel && e.decision == d && e.generation == Some(g)
  }

  predicate Tried(e: Effect, d: string, g: int) {
    e.Pushed? && e.item.event.id == d && e.under == g
  }

  predicate Settles(e: Effect, d: string, g: int) {
    IsCancel(e, d, g) || (Tried(e, d, g) && e.accepted)
  }

  /** A push stands right behind a granted claim and an accepted start of the same generation. */
  predicate PushIsEarned(log: seq<Effect>, k: nat)
    requires k < |log|
  {
    log[k].Pushed? ==>
      var d, g := log[k].item.event.id, log[k].under;
      k >= 2 && IsGrant(log[k - 2], d, g) && Begun(log[k - 1], d, g)
  }

  /** A granted claim is settled within three steps, and until then only its own start and refused push occur. */
  predicate GrantIsSettled(log: seq<Effect>, k: nat)
    requires k < |log|
  {
    log[k].Sent? && log[k].verb == Claim && Granted(log[k].answer).Some? ==>
      var d, g := log[k].decision, Granted(log[k].answer).value;
      && k + 2 < |log| && IsStart(log[k + 1], d, g)
      && if !Begun(log[k + 1], d, g) then IsCancel(log[k + 2], d, g)
         else Tried(log[k + 2], d, g) && (!log[k + 2].accepted ==> k + 3 < |log| && IsCancel(log[k + 3], d, g))
  }

  predicate Orderly(log: seq<Effect>) {
    forall k :: 0 <= k < |log| ==> PushIsEarned(log, k) && GrantIsSettled(log, k)
  }

  lemma OrderlyTogether(a: seq<Effect>, b: seq<Effect>)
    requires Orderly(a) && Orderly(b)
    ensures Orderly(a + b)
  {
    var c := a + b;
    forall k | 0 <= k < |c| ensures PushIsEarned(c, k) && GrantIsSettled(c, k) {
      if k < |a| {
        assert PushIsEarned(a, k) && GrantIsSettled(a, k);
      } else {
        assert PushIsEarned(b, k - |a|) && GrantIsSettled(b, k - |a|);
      }
    }
  }

  lemma EffectsAreOrderly(w: World, agent: string, s: State, d: Delivery)
    ensures Orderly(Effects(w, agent, s, d))
  {
    hide Admitted, Granted;
    AdmittedKeepsId(w, agent, s, d);
  }

  /** Over any run of deliveries, replays and relay answers: nothing is queued without a granted claim and an
      accepted start of the same generation, and no granted generation is left open. */
  lemma {:induction false} EveryLogIsOrderly(w: World, agent: string, ds: seq<Delivery>)
    ensures Orderly(Run(w, agent, ds).log)
    decreases |ds|
  {
    hide Orderly, Effects;
    if ds == [] {
      assert Orderly([]) by { EmptyIsOrderly(); }
    } else {
      var s := Run(w, agent, ds[..|ds| - 1]);
      EveryLogIsOrderly(w, agent, ds[..|ds| - 1]);
      EffectsAreOrderly(w, agent, s, ds[|ds| - 1]);
      OrderlyTogether(s.log, Effects(w, agent, s, ds[|ds| - 1]));
    }
  }

  lemma EmptyIsOrderly()
    ensures Orderly([])
  {
  }

  // ---------- counting ----------

  function Count(p: Effect -> bool, log: seq<Effect>): nat {
    if log == [] then 0 else Count(p, log[..|log| - 1]) + if p(log[|log| - 1]) then 1 else 0
  }

  lemma {:induction false} CountTogether(p: Effect -> bool, a: seq<Effect>, b: seq<Effect>)
    ensures Count(p, a + b) == Count(p, a) + Count(p, b)
    decreases |b|
  {
    if b == [] {
      assert a + b == a;
    } else {
      assert (a + b)[..|a + b| - 1] == a + b[..|b| - 1];
      CountTogether(p, a, b[..|b| - 1]);
    }
  }

  lemma CountNone(p: Effect -> bool)
    ensures Count(p, []) == 0
  {
  }

  lemma CountOne(p: Effect -> bool, e: Effect)
    ensures Count(p, [e]) == if p(e) then 1 else 0
  {
    assert [e][..0] == [];
  }

  lemma CountFour(p: Effect -> bool, a: Effect, b: Effect, c: Effect, e: Effect)
    ensures Count(p, [a, b]) == Count(p, [a]) + Count(p, [b])
    ensures Count(p, [a, b, c]) == Count(p, [a, b]) + Count(p, [c])
    ensures Count(p, [a, b, c, e]) == Count(p, [a, b, c]) + Count(p, [e])
  {
    CountTogether(p, [a], [b]);
    CountTogether(p, [a, b], [c]);
    CountTogether(p, [a, b, c], [e]);
    assert [a] + [b] == [a, b] && [a, b] + [c] == [a, b, c] && [a, b, c] + [e] == [a, b, c, e];
  }

  ghost predicate Balanced(log: seq<Effect>, d: string, g: int) {
    Count(e => IsGrant(e, d, g), log) == Count(e => Settles(e, d, g), log)
  }

  lemma Tally(p: Effect -> bool, log: seq<Effect>)
    requires |log| <= 4
    ensures Count(p, log) ==
      (if |log| > 0 && p(log[0]) then 1 else 0) + (if |log| > 1 && p(log[1]) then 1 else 0)
      + (if |log| > 2 && p(log[2]) then 1 else 0) + (if |log| > 3 && p(log[3]) then 1 else 0)
  {
    if |log| > 0 {
      var pad := log[0];
      var b := if |log| > 1 then log[1] else pad;
      var c := if |log| > 2 then log[2] else pad;
      var e := if |log| > 3 then log[3] else pad;
      CountFour(p, log[0], b, c, e);
      CountOne(p, log[0]);
      CountOne(p, b);
      CountOne(p, c);
      CountOne(p, e);
      assert log == if |log| == 1 then [log[0]] else if |log| == 2 then [log[0], b] else if |log| == 3 then [log[0], b, c] else [log[0], b, c, e];
    }
  }

  lemma EffectsBalance(w: World, agent: string, s: State, d: Delivery, id: string, g: int)
    ensures Balanced(Effects(w, agent, s, d), id, g)
  {
    hide Admitted, Granted, Count;
    AdmittedKeepsId(w, agent, s, d);
    var log := Effects(w, agent, s, d);
    Tally(e => IsGrant(e, id, g), log);
    Tally(e => Settles(e, id, g), log);
  }

  /** Conservation: each generation granted for a decision is, as often as it was granted, queued or cancelled. */
  lemma {:induction false} GrantsAreConserved(w: World, agent: string, ds: seq<Delivery>, id: string, g: int)
    ensures Balanced(Run(w, agent, ds).log, id, g)
    decreases |ds|
  {
    hide Effects;
    if ds != [] {
      var s := Run(w, agent, ds[..|ds| - 1]);
      var more := Effects(w, agent, s, ds[|ds| - 1]);
      GrantsAreConserved(w, agent, ds[..|ds| - 1], id, g);
      EffectsBalance(w, agent, s, ds[|ds| - 1], id, g);
      CountTogether(e => IsGrant(e, id, g), s.log, more);
      CountTogether(e => Settles(e, id, g), s.log, more);
    }
  }

  // ---------- at most once ----------

  predicate QueuedAs(e: Effect, id: string) {
    e.Pushed? && e.accepted && e.item.event.id == id
  }

  function TimesQueued(log: seq<Effect>, id: string): nat {
    Count(e => QueuedAs(e, id), log)
  }

  /** Deliveries of a decision during which the claims registry could not be read or could not be written. */
  function Unlocked(ds: seq<Delivery>, id: string): nat {
    if ds == [] then 0
    else
      var d := ds[|ds| - 1];
      Unlocked(ds[..|ds| - 1], id) + if d.event.id == id && !(d.readable && d.writable) then 1 else 0
  }

  lemma EffectsQueue(w: World, agent: string, s: State, d: Delivery, id: string)
    ensures TimesQueued(Effects(w, agent, s, d), id) == if Queues(w, agent, s, d) && d.event.id == id then 1 else 0
  {
    hide Admitted, Granted, Count;
    AdmittedKeepsId(w, agent, s, d);
    Tally(e => QueuedAs(e, id), Effects(w, agent, s, d));
  }

  lemma {:induction false} QueuedCount(w: World, agent: string, ds: seq<Delivery>, id: string)
    ensures TimesQueued(Run(w, agent, ds).log, id) <= Unlocked(ds, id) + if id in Run(w, agent, ds).claims then 1 else 0
    decreases |ds|
  {
    hide Effects, Count, Verified, FindOriginal, Granted;
    if ds == [] {
      CountNone(e => QueuedAs(e, id));
    } else {
      var s, d := Run(w, agent, ds[..|ds| - 1]), ds[|ds| - 1];
      QueuedCount(w, agent, ds[..|ds| - 1], id);
      EffectsQueue(w, agent, s, d, id);
      CountTogether(e => QueuedAs(e, id), s.log, Effects(w, agent, s, d));
      AdmittedKeepsId(w, agent, s, d);
    }
  }

  /** A decision is queued at most once, plus once for each of its deliveries that met a poisoned registry. */
  lemma QueuedAtMostOnce(w: World, agent: string, ds: seq<Delivery>, id: string)
    ensures TimesQueued(Run(w, agent, ds).log, id) <= 1 + Unlocked(ds, id)
  {
    hide TimesQueued, Unlocked, Run;
    QueuedCount(w, agent, ds, id);
  }

  /** The registry is what the bound rests on: a delivery that queues but cannot record does so again on replay. */
  lemma PoisonedRegistryQueuesTwice(w: World, agent: string, d: Delivery)
    requires Queues(w, agent, Run(w, agent, []), d) && !d.writable
    ensures TimesQueued(Run(w, agent, [d, d]).log, d.event.id) == 2
  {
    hide Effects, Count, Verified, FindOriginal, Granted;
    var s0 := Run(w, agent, []);
    var s1 := Deliver(w, agent, s0, d);
    assert [d][..0] == [] && [d, d][..1] == [d];
    assert Run(w, agent, [d]) == s1 && Run(w, agent, [d, d]) == Deliver(w, agent, s1, d);
    EffectsQueue(w, agent, s0, d, d.event.id);
    EffectsQueue(w, agent, s1, d, d.event.id);
    CountTogether(e => QueuedAs(e, d.event.id), s0.log, Effects(w, agent, s0, d));
    CountTogether(e => QueuedAs(e, d.event.id), s1.log, Effects(w, agent, s1, d));
    CountNone(e => QueuedAs(e, d.event.id));
  }

  /** The delivery would be queued if nothing were on record: it is verified, its original is found and authorised, the
      claim is granted, the start accepted, and the queue takes it. */
  predicate Willing(w: World, agent: string, d: Delivery, id: string) {
    d.event.id == id && Queues(w, agent, State(map[], []), d)
  }

  /** An earlier delivery of the decision could be recorded. */
  ghost predicate OnRecord(w: World, agent: string, ds: seq<Delivery>, id: string) {
    exists i :: 0 <= i < |ds| && Willing(w, agent, ds[i], id) && ds[i].writable
  }

  /** The deliveries that find nothing on record, or cannot look. */
  ghost function Unguarded(w: World, agent: string, ds: seq<Delivery>, id: string): nat {
    if ds == [] then 0
    else
      var front, d := ds[..|ds| - 1], ds[|ds| - 1];
      Unguarded(w, agent, front, id)
      + if Willing(w, agent, d, id) && (!d.readable || !OnRecord(w, agent, front, id)) then 1 else 0
  }

  lemma QueuesExactlyWhen(w: World, agent: string, s: State, d: Delivery, id: string)
    requires d.event.id == id
    ensures Queues(w, agent, s, d) <==> Willing(w, agent, d, id) && !(d.readable && id in s.claims)
  {
    hide Verified, FindOriginal, Granted;
    AdmittedKeepsId(w, agent, s, d);
    AdmittedKeepsId(w, agent, State(map[], []), d);
    VerifiedKeepsId(w, agent, d);
  }

  lemma VerifiedKeepsId(w: World, agent: string, d: Delivery)
    ensures Verified(w, d.event, d.relaySelf, agent).Some? ==> Verified(w, d.event, d.relaySelf, agent).value.id == d.event.id
  {
    hide SingleTag, Single;
  }

  lemma OnRecordStep(w: World, agent: string, front: seq<Delivery>, d: Delivery, id: string)
    ensures OnRecord(w, agent, front + [d], id) <==> OnRecord(w, agent, front, id) || (Willing(w, agent, d, id) && d.writable)
  {
    hide Willing;
    var ds := front + [d];
    if i :| 0 <= i < |front| && Willing(w, agent, front[i], id) && front[i].writable {
      assert ds[i] == front[i];
    }
    assert ds[|front|] == d;
  }

  /** Exactly how often a decision is queued, from the deliveries alone: once for each that is willing and either cannot
      read the registry or comes before any that could be recorded. So it is queued a second time exactly when a later
      willing delivery cannot read the registry or no earlier willing one could be recorded. */
  lemma {:induction false} TimesQueuedExactly(w: World, agent: string, ds: seq<Delivery>, id: string)
    ensures TimesQueued(Run(w, agent, ds).log, id) == Unguarded(w, agent, ds, id)
    ensures id in Run(w, agent, ds).claims <==> OnRecord(w, agent, ds, id)
    decreases |ds|
  {
    hide Effects, Count, Queues, Willing, OnRecord, Granted;
    if ds == [] {
      CountNone(e => QueuedAs(e, id));
      assert !OnRecord(w, agent, ds, id) by { NothingOnRecord(w, agent, id); }
    } else {
      var front, d := ds[..|ds| - 1], ds[|ds| - 1];
      assert ds == front + [d];
      var s := Run(w, agent, front);
      TimesQueuedExactly(w, agent, front, id);
      OnRecordStep(w, agent, front, d, id);
      EffectsQueue(w, agent, s, d, id);
      CountTogether(e => QueuedAs(e, id), s.log, Effects(w, agent, s, d));
      QueuesExactlyWhen(w, agent, s, d, d.event.id);
      WillingIsOfItsDecision(w, agent, d, id);
    }
  }

  lemma NothingOnRecord(w: World, agent: string, id: string)
    ensures !OnRecord(w, agent, [], id)
  {
  }

  lemma WillingIsOfItsDecision(w: World, agent: string, d: Delivery, id: string)
    ensures Willing(w, agent, d, id) ==> d.event.id == id
  {
  }

  /** A replay of a recorded decision sends nothing and changes nothing. */
  lemma ReplayChangesNothing(w: World, agent: string, s: State, d: Delivery)
    requires d.readable && d.event.id in s.claims
    ensures Deliver(w, agent, s, d) == s
  {
    hide SingleTag, Single, FindOriginal, Granted;
    assert s.log + [] == s.log;
  }

  // ---------- the registry ----------

  predicate Recorded(log: seq<Effect>, id: string, g: int) {
    exists k :: 0 <= k < |log| && Tried(log[k], id, g) && log[k].accepted
  }

  lemma EffectsRecord(w: World, agent: string, s: State, d: Delivery, id: string, g: int)
    ensures Recorded(Effects(w, agent, s, d), id, g) <==>
      Queues(w, agent, s, d) && d.event.id == id && Granted(d.claim) == Some(g)
  {
    hide Admitted, Granted;
    AdmittedKeepsId(w, agent, s, d);
    var log := Effects(w, agent, s, d);
    if Queues(w, agent, s, d) && d.event.id == id && Granted(d.claim) == Some(g) {
      assert Tried(log[2], id, g) && log[2].accepted;
    }
  }

  lemma RecordedTogether(a: seq<Effect>, b: seq<Effect>, id: string, g: int)
    ensures Recorded(a + b, id, g) <==> Recorded(a, id, g) || Recorded(b, id, g)
  {
    if Recorded(a, id, g) {
      var k :| 0 <= k < |a| && Tried(a[k], id, g) && a[k].accepted;
      assert (a + b)[k] == a[k];
    }
    if Recorded(b, id, g) {
      var k :| 0 <= k < |b| && Tried(b[k], id, g) && b[k].accepted;
      assert (a + b)[|a| + k] == b[k];
    }
  }

  predicate AllLocked(ds: seq<Delivery>) {
    forall i :: 0 <= i < |ds| ==> ds[i].readable && ds[i].writable
  }

  /** The registry holds only generations under which the decision was queued, and, while it can be locked, all of them. */
  lemma {:induction false} RegistryIsTheQueue(w: World, agent: string, ds: seq<Delivery>, id: string, g: int)
    ensures var s := Run(w, agent, ds);
      && (id in s.claims && s.claims[id] == g ==> Recorded(s.log, id, g))
      && (AllLocked(ds) && Recorded(s.log, id, g) ==> id in s.claims && s.claims[id] == g)
    decreases |ds|
  {
    hide Effects, Recorded, Verified, FindOriginal, Granted;
    if ds == [] {
      assert !Recorded([], id, g) by { RecordedNowhere(id, g); }
    } else {
      var front, d := ds[..|ds| - 1], ds[|ds| - 1];
      var s := Run(w, agent, front);
      RegistryIsTheQueue(w, agent, front, id, g);
      EffectsRecord(w, agent, s, d, id, g);
      RecordedTogether(s.log, Effects(w, agent, s, d), id, g);
      AdmittedKeepsId(w, agent, s, d);
      assert AllLocked(ds) ==> AllLocked(front) && d.readable && d.writable;
    }
  }

  lemma RecordedNowhere(id: string, g: int)
    ensures !Recorded([], id, g)
  {
  }

  // ---------- who was queued ----------

  /** Nothing is sent or pushed but for a decision this agent verified, whose original is genuine and whose author is
      authorised. Messages name that decision and its channel; a claim asks for 300 seconds, and a start or cancel names the
      generation granted. A push carries the decision event, its conversation, and the original's text. */
  ghost predicate Genuine(w: World, agent: string, d: Delivery, e: Effect) {
    && Verified(w, d.event, d.relaySelf, agent).Some? && d.authorized.Some?
    && var decision := Verified(w, d.event, d.relaySelf, agent).value;
    && (exists i, id :: 0 <= i < |d.fetched| && w.eventId(decision.original) == Some(id) && IsOriginal(w, id, d.fetched[i])
          && d.fetched[i].value.kind == 9 && (e.Pushed? ==> d.fetched[i].value.content == e.item.content))
    && match e
       case Sent(verb, id, channel, generation, ttl, _) =>
         && id == d.event.id && channel == decision.channel
         && (if verb.Claim? then generation == None && ttl == Some(300) else generation == Granted(d.claim) && generation.Some? && ttl == None)
       case Pushed(item, under, _) =>
         && item.event == d.event && Granted(d.claim) == Some(under)
         && item.conversation == w.conversation(decision.channel, d.event, d.authorized.value)
  }

  lemma EffectsAreGenuine(w: World, agent: string, s: State, d: Delivery, k: nat)
    requires k < |Effects(w, agent, s, d)|
    ensures Genuine(w, agent, d, Effects(w, agent, s, d)[k])
  {
    hide Verified, Granted, FindOriginal;
    AdmittedKeepsId(w, agent, s, d);
    var decision := Verified(w, d.event, d.relaySelf, agent).value;
    var id := w.eventId(decision.original).value;
    OriginalIsGenuine(w, id, d.fetched);
    var original := FindOriginal(w, id, d.fetched);
    var i :| 0 <= i < |d.fetched| && d.fetched[i] == original;
    assert IsOriginal(w, id, d.fetched[i]);
  }

  /** Over every run each message and each push is genuine in that sense, for one of the deliveries. */
  lemma {:induction false} OnlyGenuineDecisions(w: World, agent: string, ds: seq<Delivery>, k: nat)
    requires k < |Run(w, agent, ds).log|
    ensures exists i :: 0 <= i < |ds| && Genuine(w, agent, ds[i], Run(w, agent, ds).log[k])
    decreases |ds|
  {
    hide Effects, Genuine;
    var front, d := ds[..|ds| - 1], ds[|ds| - 1];
    var s := Run(w, agent, front);
    if k < |s.log| {
      OnlyGenuineDecisions(w, agent, front, k);
      var i :| 0 <= i < |front| && Genuine(w, agent, front[i], s.log[k]);
      assert Genuine(w, agent, ds[i], Run(w, agent, ds).log[k]);
    } else {
      EffectsAreGenuine(w, agent, s, d, k - |s.log|);
      assert Genuine(w, agent, ds[|ds| - 1], Run(w, agent, ds).log[k]);
    }
  }

  // ---------- the handler ----------

  /** The agent's side: the claims registry, and what it has sent and queued so far. */
  class ContactDesk {
    const world: World
    const agent: string
    var claims: map<string, int>
    var log: seq<Effect>

    constructor (world: World, agent: string)
      ensures this.world == world && this.agent == agent
      ensures claims == map[] && log == []
    {
      this.world, this.agent := world, agent;
      claims, log := map[], [];
    }

    method ContactControl(verb: Verb, decision: string, channel: Uuid, generation: Option<int>, ttl: Option<int>, answer: Answer)
      modifies this`log
      ensures log == old(log) + [Sent(verb, decision, channel, generation, ttl, answer)]
    {
      log := log + [Sent(verb, decision, channel, generation, ttl, answer)];
    }

    /** Take the first fetched event that is the original, of the right kind and genuinely signed. */
    method FetchOriginal(id: string, fetched: seq<Option<Event>>) returns (original: Option<Event>)
      ensures original == FindOriginal(world, id, fetched)
    {
      for i := 0 to |fetched|
        invariant FindOriginal(world, id, fetched) == FindOriginal(world, id, fetched[i..])
      {
        assert fetched[i..][1..] == fetched[i + 1..];
        if IsOriginal(world, id, fetched[i]) {
          return fetched[i];
        }
      }
      return None;
    }

    method ConsumeContactDecision(d: Delivery) returns (consumed: bool)
      modifies this
      ensures State(claims, log) == Deliver(world, agent, old(State(claims, log)), d)
      ensures consumed == Queues(world, agent, old(State(claims, log)), d)
    {
      hide Verified, FindOriginal, Granted;
      ghost var s := State(claims, log);
      AdmittedKeepsId(world, agent, s, d);
      var verified := Verified(world, d.event, d.relaySelf, agent);
      if verified.None? {
        return false;
      }
      var decision := verified.value;
      if d.readable {
        if decision.id in claims {
          return false;
        }
      }
      var id := world.eventId(decision.original);
      if id.None? {
        return false;
      }
      var original := FetchOriginal(id.value, d.fetched);
      if original.None? || d.authorized.None? {
        return false;
      }
      assert Admitted(world, agent, s, d) == Some((decision, original.value));
      ContactControl(Claim, decision.id, decision.channel, None, Some(CLAIM_TTL), d.claim);
      var generation := Granted(d.claim);
      if generation.None? {
        return false;
      }
      ContactControl(Start, decision.id, decision.channel, generation, None, d.start);
      if !(d.start.Acked? && d.start.accepted) {
        ContactControl(Cancel, decision.id, decision.channel, generation, None, d.cancel);
        return false;
      }
      log := log + [Pushed(Item(world, decision, original.value, d), generation.value, d.accepted)];
      if !d.accepted {
        ContactControl(Cancel, decision.id, decision.channel, generation, None, d.cancel);
        return false;
      }
      if d.writable {
        claims := claims[decision.id := generation.value];
      }
      return true;
    }
  }
}
