/**
 * The tool's end of the wire: `tools/call` requests answered in rounds, each resumed by a retry that
 * carries the round's token. The state, and what each operation does to it, as functions on values.
 * A call is named by its place in `heap`, as the dictionaries of the transport hold references to it.
 */
module RoundModel {
  import opened Events
  import opened HostModel

  datatype RequestId = Numeric(n: int) | Text(s: string)

  type Token = string

  /** A request received: the id to answer on, and which of the requests received it is. */
  datatype Request = Request(id: RequestId, serial: nat)

  /** One attempt waiting for its answer. `carriedBy` is the round it went out in, `settledBy` the round whose
      retry settled it; `timedOut` says that its own wait ran out first. */
  datatype Pending = Pending(
    call: nat,
    event: Event,
    carriedBy: Option<Token>,
    response: Option<Answer>,
    settledBy: Option<Token>,
    timedOut: bool)

  datatype Round = Round(token: Token, awaiting: map<string, nat>)

  /** A round as it went out. */
  datatype RoundSent = RoundSent(token: Token, events: seq<Event>)

  datatype Frame = ErrorFrame | ResultFrame

  /**
   * One call. The last members are its history: the events its handler emitted, those each round and the
   * final result carried, the attempts whose place another of the same id took, and the final frame that
   * went out.
   */
  datatype Call = Call(
    originalId: RequestId,
    audit: Option<string>,
    current: Option<Request>,
    ids: set<RequestId>,
    buffered: seq<Event>,
    bufferedAwaiting: map<string, nat>,
    round: Option<Round>,
    roundScheduled: bool,
    final: Option<Frame>,
    finished: bool,
    ended: bool,
    emitted: seq<Event>,
    rounds: seq<RoundSent>,
    finalEvents: seq<Event>,
    shadowed: set<nat>,
    shown: Option<Frame>)

  /** `issued`, `resumed` and `answered` are history: the tokens issued, those a retry was taken for, and the
      requests answered. */
  datatype Seam = Seam(
    heap: seq<Call>,
    pendings: seq<Pending>,
    calls: map<RequestId, nat>,
    waiting: seq<(RequestId, nat)>,
    cancelled: map<RequestId, nat>,
    rounds: map<Token, nat>,
    issued: set<Token>,
    resumed: seq<Token>,
    received: nat,
    answered: seq<nat>)

  const MAX_IDLE_SESSIONS := 1024

  const NEW_SEAM := Seam([], [], map[], [], map[], map[], {}, [], 0, [])

  function NameOf(e: Event): string {
    if e.id.Some? then e.id.value else "None"
  }

  function Outcomes(es: seq<Event>): seq<Event> {
    if es == [] then
      []
    else
      var rest := Outcomes(es[..|es| - 1]);
      if IsAttempt(es[|es| - 1]) then rest else rest + [es[|es| - 1]]
  }

  predicate HasAttempt(es: seq<Event>) {
    exists e :: e in es && IsAttempt(e)
  }

  /** Everything the call's frames carried, in order. */
  function Carried(c: Call): seq<Event> {
    Joined(c.rounds) + c.finalEvents
  }

  function Joined(rounds: seq<RoundSent>): seq<Event> {
    if rounds == [] then [] else Joined(rounds[..|rounds| - 1]) + rounds[|rounds| - 1].events
  }

  function With(s: Seam, ref: nat, c: Call): Seam
    requires ref < |s.heap|
  {
    s.(heap := s.heap[ref := c])
  }

  // ----- settling -----

  /** The first answer stands. */
  function Settle(p: Pending, answer: Answer, token: Option<Token>): Pending {
    if p.response.Some? then p else p.(response := Some(answer), settledBy := token)
  }

  /** The wait for an answer ran out. */
  function RunOut(p: Pending): Pending {
    if p.response.Some? then p else Settle(p, Unavailable, None).(timedOut := true)
  }

  function SettleUnavailable(ps: seq<Pending>, which: set<nat>): seq<Pending> {
    seq(|ps|, i requires 0 <= i < |ps| => if i in which then Settle(ps[i], Unavailable, None) else ps[i])
  }

  /** The retry's answers go to the attempts of the round it closes; one it does not name is unanswered. */
  function SettleRound(ps: seq<Pending>, out: Round, responses: map<string, Answer>): seq<Pending> {
    seq(|ps|, i requires 0 <= i < |ps| =>
      if i in out.awaiting.Values then
        Settle(ps[i], AnswerFor(NameOf(ps[i].event), responses), Some(out.token))
      else
        ps[i])
  }

  function AnswerFor(name: string, responses: map<string, Answer>): Answer {
    if name in responses then responses[name] else Unavailable
  }

  function CarryAll(ps: seq<Pending>, which: set<nat>, token: Token): seq<Pending> {
    seq(|ps|, i requires 0 <= i < |ps| => if i in which then ps[i].(carriedBy := Some(token)) else ps[i])
  }

  function AwaitedBy(c: Call): set<nat> {
    if c.round.Some? then c.round.value.awaiting.Values else {}
  }

  // ----- calls -----

  function TakeNew(s: Seam, id: RequestId, audit: Option<string>): Seam {
    var c := Call(id, audit, Some(Request(id, s.received)), {id}, [], map[], None, false, None, false, false,
                  [], [], [], {}, None);
    s.(heap := s.heap + [c], calls := s.calls[id := |s.heap|], received := s.received + 1)
  }

  function Refuse(s: Seam): Seam {
    s.(received := s.received + 1, answered := s.answered + [s.received])
  }

  /** A retry: refused where no round of its token is out; otherwise taken to that round and to no other. */
  function TakeRetry(s: Seam, id: RequestId, token: Token, session: Option<string>, responses: map<string, Answer>)
    : Seam
  {
    if token !in s.rounds || s.rounds[token] >= |s.heap| then
      Refuse(s)
    else
      var ref := s.rounds[token];
      var popped := s.(rounds := s.rounds - {token}, resumed := s.resumed + [token]);
      var t := AcceptRetry(popped, ref, id, session, responses);
      if t.heap[ref].final.Some? then FinalFrame(t, ref, t.heap[ref].final.value) else t
  }

  function AcceptRetry(s: Seam, ref: nat, id: RequestId, session: Option<string>, responses: map<string, Answer>)
    : (t: Seam)
    requires ref < |s.heap|
    ensures ref < |t.heap|
  {
    var c := s.heap[ref];
    var named := session.Some? && session == c.audit;
    var given := if named then responses else map[];
    var ps := if c.round.Some? then SettleRound(s.pendings, c.round.value, given) else s.pendings;
    var needsRound := !c.finished && !c.ended && HasAttempt(c.buffered);
    With(s.(pendings := ps, received := s.received + 1), ref,
         c.(round := None, current := Some(Request(id, s.received)), ids := c.ids + {id},
            roundScheduled := c.roundScheduled || needsRound))
  }

  // ----- the handler -----

  /** An attempt joins the next round, and waits. Past the call's conclusion nothing can answer it. */
  function SendAttempt(s: Seam, ref: nat, e: Event): Seam
    requires ref < |s.heap|
  {
    var c := s.heap[ref];
    if c.finished || c.ended then
      s
    else
      var p := |s.pendings|;
      var name := NameOf(e);
      With(s.(pendings := s.pendings + [Pending(ref, e, None, None, None, false)]), ref,
           c.(buffered := c.buffered + [e], emitted := c.emitted + [e],
              shadowed := if name in c.bufferedAwaiting then c.shadowed + {c.bufferedAwaiting[name]} else c.shadowed,
              bufferedAwaiting := c.bufferedAwaiting[name := p], roundScheduled := true))
  }

  function SendOutcome(s: Seam, ref: nat, e: Event): Seam
    requires ref < |s.heap|
  {
    var c := s.heap[ref];
    if c.finished || c.ended then s else With(s, ref, c.(buffered := c.buffered + [e], emitted := c.emitted + [e]))
  }

  function Timeout(s: Seam, p: nat): Seam
    requires p < |s.pendings|
  {
    s.(pendings := s.pendings[p := RunOut(s.pendings[p])])
  }

  /** The scheduled round goes out on the id still open, with everything emitted since the last. */
  function EndRound(s: Seam, ref: nat, token: Token): Seam
    requires ref < |s.heap|
  {
    var c := s.heap[ref].(roundScheduled := false);
    if c.ended || c.round.Some? || c.current.None? || c.buffered == [] then
      With(s, ref, c)
    else
      With(s.(pendings := CarryAll(s.pendings, c.bufferedAwaiting.Values, token), rounds := s.rounds[token := ref],
              issued := s.issued + {token}, answered := s.answered + [c.current.value.serial]),
           ref,
           c.(buffered := [], bufferedAwaiting := map[], round := Some(Round(token, c.bufferedAwaiting)),
              current := None, rounds := c.rounds + [RoundSent(token, c.buffered)]))
  }

  // ----- the end of a call -----

  function Unlisted(waiting: seq<(RequestId, nat)>, id: RequestId): (r: seq<(RequestId, nat)>)
    ensures |r| <= |waiting|
    ensures forall x :: x in r <==> x in waiting && x.0 != id
  {
    if waiting == [] then
      []
    else if waiting[0].0 == id then
      Unlisted(waiting[1..], id)
    else
      [waiting[0]] + Unlisted(waiting[1..], id)
  }

  /** The call is dropped: its attempts are unanswered, its round closes, and its final frame is withheld. */
  function EndCall(s: Seam, ref: nat): Seam
    requires ref < |s.heap|
  {
    var c := s.heap[ref];
    With(s.(calls := s.calls - {c.originalId},
            waiting := Unlisted(s.waiting, c.originalId),
            rounds := if c.round.Some? then s.rounds - {c.round.value.token} else s.rounds,
            pendings := SettleUnavailable(s.pendings, AwaitedBy(c) + c.bufferedAwaiting.Values)),
         ref,
         c.(finished := true, ended := true, final := None, bufferedAwaiting := map[]))
  }

  function KeepWaiting(s: Seam, ref: nat, frame: Frame): Seam
    requires ref < |s.heap|
  {
    var c := s.heap[ref];
    var t := With(s.(waiting := Unlisted(s.waiting, c.originalId) + [(c.originalId, ref)]), ref,
                  c.(final := Some(frame)));
    if |t.waiting| > MAX_IDLE_SESSIONS && t.waiting[0].1 < |t.heap| then EndCall(t, t.waiting[0].1) else t
  }

  function Conclude(s: Seam, ref: nat, frame: Frame, finalEvents: seq<Event>): Seam
    requires ref < |s.heap| && s.heap[ref].current.Some?
  {
    var c := s.heap[ref];
    With(s.(waiting := Unlisted(s.waiting, c.originalId), answered := s.answered + [c.current.value.serial]), ref,
         c.(ended := true, final := None, finalEvents := finalEvents, shown := Some(frame)))
  }

  /** The frame that concludes the call goes out on the open id with the outcomes left - after a round of
      their own where the frame is an error, which carries none. */
  function FinalFrame(s: Seam, ref: nat, frame: Frame): Seam
    requires ref < |s.heap|
  {
    var c := s.heap[ref];
    if c.current.None? then
      s
    else
      var outcomes := Outcomes(c.buffered);
      var t := With(s.(pendings := SettleUnavailable(s.pendings, c.bufferedAwaiting.Values)), ref,
                    c.(buffered := [], bufferedAwaiting := map[]));
      match frame
      case ErrorFrame =>
        if outcomes != [] then
          KeepWaiting(With(t, ref, t.heap[ref].(buffered := outcomes, roundScheduled := true)), ref, frame)
        else
          Conclude(t, ref, frame, [])
      case ResultFrame => Conclude(t, ref, frame, outcomes)
  }

  /** The handler concluded. While a round is out, its retry is the one request left to answer on. */
  function Finish(s: Seam, id: RequestId, frame: Frame): Seam {
    if id in s.cancelled then
      s.(cancelled := s.cancelled - {id})
    else if id !in s.calls || s.calls[id] >= |s.heap| then
      s
    else
      var ref := s.calls[id];
      var c := s.heap[ref].(finished := true);
      var t := With(s.(calls := s.calls - {id}), ref, c);
      if c.round.Some? then
        KeepWaiting(t.(pendings := SettleUnavailable(t.pendings, AwaitedBy(c))), ref, frame)
      else
        FinalFrame(t, ref, frame)
  }

  function Cancel(s: Seam, ref: nat): Seam
    requires ref < |s.heap|
  {
    var c := s.heap[ref];
    var t := EndCall(s, ref);
    if c.finished then t else t.(cancelled := t.cancelled[c.originalId := ref])
  }

  // ----- runs -----

  datatype Move =
    | NewCall(id: RequestId, audit: Option<string>)
    | Retry(id: RequestId, token: Token, session: Option<string>, responses: map<string, Answer>)
    | EmitAttempt(ref: nat, event: Event)
    | EmitOutcome(ref: nat, event: Event)
    | TimesOut(pending: nat)
    | RoundGoes(ref: nat, token: Token)
    | HandlerConcludes(id: RequestId, frame: Frame)
    | CancelArrives(target: RequestId, ref: nat)
    | Forgets(id: RequestId)
    | Drops(ref: nat)

  /** A cancellation ends a call that has not gone, by any id it was served under. Tokens are never repeated. */
  predicate Enabled(s: Seam, m: Move) {
    match m
    case NewCall(_, _) => true
    case Retry(_, _, _, _) => true
    case EmitAttempt(ref, e) => ref < |s.heap| && IsAttempt(e)
    case EmitOutcome(ref, e) => ref < |s.heap| && !IsAttempt(e)
    case TimesOut(p) => p < |s.pendings|
    case RoundGoes(ref, token) => ref < |s.heap| && s.heap[ref].roundScheduled && token !in s.issued
    case HandlerConcludes(_, _) => true
    case CancelArrives(target, ref) =>
      ref < |s.heap| && target in s.heap[ref].ids
      && (ref in s.calls.Values || exists x :: x in s.waiting && x.1 == ref)
    case Forgets(_) => true
    case Drops(ref) => ref < |s.heap| && !s.heap[ref].ended
  }

  function Next(s: Seam, m: Move): Seam
    requires Enabled(s, m)
  {
    match m
    case NewCall(id, audit) => TakeNew(s, id, audit)
    case Retry(id, token, session, responses) => TakeRetry(s, id, token, session, responses)
    case EmitAttempt(ref, e) => SendAttempt(s, ref, e)
    case EmitOutcome(ref, e) => SendOutcome(s, ref, e)
    case TimesOut(p) => Timeout(s, p)
    case RoundGoes(ref, token) => EndRound(s, ref, token)
    case HandlerConcludes(id, frame) => Finish(s, id, frame)
    case CancelArrives(_, ref) => Cancel(s, ref)
    case Forgets(id) => s.(cancelled := s.cancelled - {id})
    case Drops(ref) => EndCall(s, ref)
  }

  ghost predicate Legal(s: Seam, ms: seq<Move>)
    decreases |ms|
  {
    ms != [] ==> Enabled(s, ms[0]) && Legal(Next(s, ms[0]), ms[1..])
  }

  function Play(s: Seam, ms: seq<Move>): Seam
    requires Legal(s, ms)
    decreases |ms|
  {
    if ms == [] then s else Play(Next(s, ms[0]), ms[1..])
  }
}
