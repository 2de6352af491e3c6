/** Proof sessions: creation with idempotency keys, expiry, cancellation, and proof verification with
    its anti-replay tables (rust/src/api.rs, rust/src/models.rs). */
module Sessions {
  import opened Core
  import opened Text

  type SessionId = nat
  type ProofId = nat
  type Digest = nat

  datatype State = Pending | Executing | Verified | Failed | Cancelled | Expired

  predicate CanTransitionTo(from: State, to: State) {
    match from
    case Pending => to in {Executing, Verified, Failed, Cancelled, Expired}
    case Executing => to in {Verified, Failed, Expired}
    case _ => false
  }

  datatype Session = Session(trade: string, buyer: string, state: State, proof: Option<ProofId>, expiresAt: Time)

  /** What the verified transcript showed. */
  datatype Evidence = Evidence(digest: Digest, server: string, reference: string)

  datatype Proof = Proof(session: SessionId, trade: string, evidence: Evidence)

  /** The service's tables, and the idempotency key each session was created under, which the source
      does not keep. */
  datatype Desk = Desk(
    sessions: map<SessionId, Session>,
    byKey: map<string, SessionId>,
    digests: map<Digest, SessionId>,
    references: map<string, string>,
    proofs: map<ProofId, Proof>,
    origin: map<SessionId, string>)

  datatype Reason =
    | TooMany | NotFound | CrossUser | NotCancellable | PrincipalMismatch | TradeMismatch | SessionExpired
    | InvalidState | PresentationRejected | ReplayedTranscript | DuplicateReference | SigningFailed

  datatype Answer = Given(id: nat) | Denied(reason: Reason)

  // ---- Operations ----------------------------------------------------------------------------------

  predicate Live(s: Session, now: Time) { s.expiresAt > now && s.state !in {Cancelled, Failed} }

  /** The deduplication key: the caller's own, or one per trade, buyer and host. */
  function KeyOf(idempotencyKey: Option<string>, trade: string, buyer: string, host: string): string {
    if idempotencyKey.Some? then idempotencyKey.value else "active:" + trade + ":" + buyer + ":" + host
  }

  /** Reuses the live session of the key, or makes a new one. */
  function Create(d: Desk, key: string, trade: string, buyer: string, id: SessionId, ttl: nat, now: Time)
    : (Desk, Answer)
  {
    if key in d.byKey && d.byKey[key] in d.sessions && Live(d.sessions[d.byKey[key]], now)
    then (d, Given(d.byKey[key]))
    else
      (d.(sessions := d.sessions[id := Session(trade, buyer, Pending, None, now + ttl)],
          byKey := d.byKey[key := id],
          origin := d.origin[id := key]),
       Given(id))
  }

  function SetState(d: Desk, id: SessionId, state: State): Desk
    requires id in d.sessions
  {
    d.(sessions := d.sessions[id := d.sessions[id].(state := state)])
  }

  predicate Foreign(caller: Option<string>, s: Session) { caller.Some? && caller.value != s.buyer }

  function Get(d: Desk, id: SessionId, caller: Option<string>, now: Time): (Desk, Answer) {
    if id !in d.sessions then (d, Denied(NotFound))
    else if Foreign(caller, d.sessions[id]) then (d, Denied(CrossUser))
    else if d.sessions[id].state == Pending && d.sessions[id].expiresAt <= now then
      (SetState(d, id, Expired), Given(id))
    else (d, Given(id))
  }

  function Cancel(d: Desk, id: SessionId, caller: Option<string>): (Desk, Answer) {
    if id !in d.sessions then (d, Denied(NotFound))
    else if Foreign(caller, d.sessions[id]) then (d, Denied(CrossUser))
    else if !CanTransitionTo(d.sessions[id].state, Cancelled) then (d, Denied(NotCancellable))
    else (SetState(d, id, Cancelled), Given(id))
  }

  function ReferenceKey(e: Evidence): string { e.server + ":" + Lower(e.reference) }

  /** The anti-replay part, for a session that has just begun to execute. */
  function Record(d: Desk, id: SessionId, e: Evidence, signed: bool, pid: ProofId): (Desk, Answer)
    requires id in d.sessions
  {
    var s := d.sessions[id];
    if e.digest in d.digests && d.digests[e.digest] != id then (SetState(d, id, Failed), Denied(ReplayedTranscript))
    else if e.reference != "" && ReferenceKey(e) in d.references && d.references[ReferenceKey(e)] != s.trade
    then (SetState(d, id, Failed), Denied(DuplicateReference))
    else
      var d1 := d.(
        references := if e.reference != "" then d.references[ReferenceKey(e) := s.trade] else d.references,
        digests := d.digests[e.digest := id]);
      if !signed then (d1, Denied(SigningFailed))
      else
        (d1.(proofs := d.proofs[pid := Proof(id, s.trade, e)],
             sessions := d.sessions[id := s.(state := Verified, proof := Some(pid))]),
         Given(pid))
  }

  /** Verification of a presentation for a session. The outcome of the cryptographic check and of signing
      the attestation are inputs. */
  function Process(
    d: Desk, id: SessionId, buyer: string, trade: string, outcome: Option<Evidence>, signed: bool, pid: ProofId,
    limiterOk: bool, now: Time): (Desk, Answer)
  {
    if !limiterOk then (d, Denied(TooMany))
    else if id !in d.sessions then (d, Denied(NotFound)) else
    var s := d.sessions[id];
    if s.buyer != buyer then (d, Denied(PrincipalMismatch))
    else if s.trade != trade then (d, Denied(TradeMismatch))
    else if s.expiresAt <= now then (SetState(d, id, Expired), Denied(SessionExpired))
    else if s.state == Verified && s.proof.Some? && s.proof.value in d.proofs then (d, Given(s.proof.value))
    else if !CanTransitionTo(s.state, Executing) then (d, Denied(InvalidState))
    else if outcome.None? then (SetState(SetState(d, id, Executing), id, Failed), Denied(PresentationRejected))
    else Record(SetState(d, id, Executing), id, outcome.value, signed, pid)
  }

  // ---- Invariant -------------------------------------------------------------------------------------

  predicate ProofOk(d: Desk, pid: ProofId)
    requires pid in d.proofs
  {
    var p := d.proofs[pid];
    && p.session in d.sessions
    && d.sessions[p.session].state in {Verified, Expired} && d.sessions[p.session].proof == Some(pid)
    && d.sessions[p.session].trade == p.trade
    && p.evidence.digest in d.digests && d.digests[p.evidence.digest] == p.session
    && (p.evidence.reference != "" ==>
          ReferenceKey(p.evidence) in d.references && d.references[ReferenceKey(p.evidence)] == p.trade)
  }

  /** Only a session's own proof is on its record, and none before it is verified. */
  predicate SessionOk(s: Session) { s.proof.Some? ==> s.state in {Verified, Expired} }

  /** `now` is no earlier than any step so far. */
  ghost predicate DeskOk(d: Desk, now: Time) {
    && (forall pid :: pid in d.proofs ==> ProofOk(d, pid))
    && (forall id :: id in d.sessions ==> SessionOk(d.sessions[id]))
    && d.origin.Keys == d.sessions.Keys
    && (forall id :: id in d.sessions && Live(d.sessions[id], now) ==>
          d.origin[id] in d.byKey && d.byKey[d.origin[id]] == id)
  }

  function EmptyDesk(): Desk { Desk(map[], map[], map[], map[], map[], map[]) }

  // ---- Steps -------------------------------------------------------------------------------------------

  datatype Act =
    | CreateAct(idempotencyKey: Option<string>, trade: string, buyer: string, host: string, id: SessionId, ttl: nat)
    | GetAct(id: SessionId, caller: Option<string>)
    | CancelAct(id: SessionId, caller: Option<string>)
    | ProcessAct(id: SessionId, buyer: string, trade: string, outcome: Option<Evidence>, signed: bool, pid: ProofId,
                 limiterOk: bool)

  function Step(d: Desk, a: Act, now: Time): (Desk, Answer) {
    match a
    case CreateAct(idem, trade, buyer, host, id, ttl) =>
      Create(d, KeyOf(idem, trade, buyer, host), trade, buyer, id, ttl, now)
    case GetAct(id, caller) => Get(d, id, caller, now)
    case CancelAct(id, caller) => Cancel(d, id, caller)
    case ProcessAct(id, buyer, trade, outcome, signed, pid, ok) =>
      Process(d, id, buyer, trade, outcome, signed, pid, ok, now)
  }

  /** Session and proof identifiers are drawn at random and assumed new. */
  predicate Fresh(d: Desk, a: Act) {
    match a
    case CreateAct(_, _, _, _, id, _) => id !in d.sessions
    case ProcessAct(_, _, _, _, _, pid, _) => pid !in d.proofs
    case _ => true
  }

  /** What no step undoes: proofs, spent digests and spent references stay exactly as they are, a session
      keeps its trade, buyer and deadline, and nothing becomes pending again. */
  ghost predicate Keeps(d: Desk, e: Desk) {
    && (forall pid :: pid in d.proofs ==> pid in e.proofs && e.proofs[pid] == d.proofs[pid])
    && (forall x :: x in d.digests ==> x in e.digests && e.digests[x] == d.digests[x])
    && (forall r :: r in d.references ==> r in e.references && e.references[r] == d.references[r])
    && (forall id :: id in d.sessions ==>
          && id in e.sessions && e.origin.Keys >= d.origin.Keys
          && e.sessions[id].trade == d.sessions[id].trade && e.sessions[id].buyer == d.sessions[id].buyer
          && e.sessions[id].expiresAt == d.sessions[id].expiresAt
          && (e.sessions[id].state == Pending ==> d.sessions[id].state == Pending))
    && (forall id :: id in d.origin ==> id in e.origin && e.origin[id] == d.origin[id])
  }

  lemma SetStateKeeps(d: Desk, id: SessionId, state: State, now: Time)
    requires DeskOk(d, now) && id in d.sessions && state != Pending
    requires d.sessions[id].proof.Some? ==> state in {Verified, Expired}
    requires Live(d.sessions[id].(state := state), now) ==> Live(d.sessions[id], now)
    ensures var e := SetState(d, id, state); DeskOk(e, now) && Keeps(d, e)
  {}

  /** Proofs stand on their session, digest and reference only. */
  lemma ProofFrame(d: Desk, e: Desk, pid: ProofId)
    requires pid in d.proofs && pid in e.proofs && e.proofs[pid] == d.proofs[pid] && ProofOk(d, pid)
    requires var id := d.proofs[pid].session; id in e.sessions && e.sessions[id] == d.sessions[id]
    requires forall x :: x in d.digests ==> x in e.digests && e.digests[x] == d.digests[x]
    requires forall r :: r in d.references ==> r in e.references && e.references[r] == d.references[r]
    ensures ProofOk(e, pid)
  {
    hide ReferenceKey;
  }

  lemma CreateKeeps(d: Desk, key: string, trade: string, buyer: string, id: SessionId, ttl: nat, now: Time)
    requires DeskOk(d, now) && id !in d.sessions
    ensures var e := Create(d, key, trade, buyer, id, ttl, now).0; DeskOk(e, now) && Keeps(d, e)
  {
    hide ProofOk, SessionOk;
    var e := Create(d, key, trade, buyer, id, ttl, now).0;
    if e != d {
      forall pid | pid in e.proofs
        ensures ProofOk(e, pid)
      {
        SessionOfProof(d, pid);
        ProofFrame(d, e, pid);
      }
      assert SessionOk(e.sessions[id]) by { FreshSessionOk(e.sessions[id]); }
      forall x | x in e.sessions && Live(e.sessions[x], now)
        ensures e.origin[x] in e.byKey && e.byKey[e.origin[x]] == x
      {
        if x != id { assert Live(d.sessions[x], now); }
      }
    } else {
      NothingLost(d);
    }
  }

  lemma FreshSessionOk(s: Session)
    requires s.proof.None?
    ensures SessionOk(s)
  {}

  lemma SessionOfProof(d: Desk, pid: ProofId)
    requires pid in d.proofs && ProofOk(d, pid)
    ensures d.proofs[pid].session in d.sessions
    ensures d.sessions[d.proofs[pid].session].state in {Verified, Expired}
  {}

  /** Spending evidence that is new, or this session's and this trade's own. */
  lemma SpendKeeps(d: Desk, e: Desk, id: SessionId, now: Time)
    requires DeskOk(d, now) && e == d.(digests := e.digests, references := e.references)
    requires forall x :: x in d.digests ==> x in e.digests && e.digests[x] == d.digests[x]
    requires forall r :: r in d.references ==> r in e.references && e.references[r] == d.references[r]
    ensures DeskOk(e, now) && Keeps(d, e)
  {
    hide ProofOk, Live;
    forall pid | pid in e.proofs
      ensures ProofOk(e, pid)
    {
      SessionOfProof(d, pid);
      ProofFrame(d, e, pid);
    }
  }

  lemma NewProofKeeps(d: Desk, id: SessionId, pid: ProofId, p: Proof, now: Time)
    requires DeskOk(d, now) && id in d.sessions && pid !in d.proofs && d.sessions[id].state == Executing
    requires p.session == id && p.trade == d.sessions[id].trade
    requires p.evidence.digest in d.digests && d.digests[p.evidence.digest] == id
    requires p.evidence.reference != "" ==>
               ReferenceKey(p.evidence) in d.references && d.references[ReferenceKey(p.evidence)] == p.trade
    ensures var e := d.(proofs := d.proofs[pid := p],
                        sessions := d.sessions[id := d.sessions[id].(state := Verified, proof := Some(pid))]);
            DeskOk(e, now) && Keeps(d, e)
  {
    hide ReferenceKey;
    var e := d.(proofs := d.proofs[pid := p],
                sessions := d.sessions[id := d.sessions[id].(state := Verified, proof := Some(pid))]);
    assert ProofOk(e, pid);
    hide ProofOk;
    forall x | x in d.proofs
      ensures ProofOk(e, x)
    {
      SessionOfProof(d, x);
      ProofFrame(d, e, x);
    }
  }

  lemma RecordKeeps(d: Desk, id: SessionId, e: Evidence, signed: bool, pid: ProofId, now: Time)
    requires DeskOk(d, now) && id in d.sessions && pid !in d.proofs && d.sessions[id].state == Executing
    ensures var r := Record(d, id, e, signed, pid).0; DeskOk(r, now) && Keeps(d, r)
  {
    hide DeskOk, Keeps, ReferenceKey;
    var (r, answer) := Record(d, id, e, signed, pid);
    ExecutingHasNoProof(d, id, now);
    if answer in {Denied(ReplayedTranscript), Denied(DuplicateReference)} {
      SetStateKeeps(d, id, Failed, now);
    } else {
      var d1 := d.(digests := r.digests, references := r.references);
      SpendKeeps(d, d1, id, now);
      if signed {
        NewProofKeeps(d1, id, pid, Proof(id, d.sessions[id].trade, e), now);
        KeepsTwice(d, d1, r);
      }
    }
  }

  lemma ExecutingHasNoProof(d: Desk, id: SessionId, now: Time)
    requires DeskOk(d, now) && id in d.sessions && d.sessions[id].state == Executing
    ensures d.sessions[id].proof.None?
  {
    assert SessionOk(d.sessions[id]);
  }

  lemma ProcessKeeps(
    d: Desk, id: SessionId, buyer: string, trade: string, outcome: Option<Evidence>, signed: bool, pid: ProofId,
    limiterOk: bool, now: Time)
    requires DeskOk(d, now) && pid !in d.proofs
    ensures var e := Process(d, id, buyer, trade, outcome, signed, pid, limiterOk, now).0; DeskOk(e, now) && Keeps(d, e)
  {
    hide Record, DeskOk, Keeps;
    NothingLost(d);
    if id in d.sessions {
      var s := d.sessions[id];
      PendingHasNoProof(d, id, now);
      if limiterOk && s.buyer == buyer && s.trade == trade {
        if s.expiresAt <= now {
          SetStateKeeps(d, id, Expired, now);
        } else if CanTransitionTo(s.state, Executing) {
          SetStateKeeps(d, id, Executing, now);
          var d1 := SetState(d, id, Executing);
          if outcome.None? {
            SetStateKeeps(d1, id, Failed, now);
            KeepsTwice(d, d1, SetState(d1, id, Failed));
          } else {
            RecordKeeps(d1, id, outcome.value, signed, pid, now);
            KeepsTwice(d, d1, Record(d1, id, outcome.value, signed, pid).0);
          }
        }
      }
    }
  }

  lemma NothingLost(d: Desk)
    ensures Keeps(d, d)
  {}

  lemma PendingHasNoProof(d: Desk, id: SessionId, now: Time)
    requires DeskOk(d, now) && id in d.sessions
    ensures d.sessions[id].state == Pending ==> d.sessions[id].proof.None?
  {
    assert SessionOk(d.sessions[id]);
  }

  lemma KeepsTwice(d: Desk, e: Desk, f: Desk)
    requires Keeps(d, e) && Keeps(e, f)
    ensures Keeps(d, f)
  {}

  lemma StepKeeps(d: Desk, a: Act, now: Time)
    requires DeskOk(d, now) && Fresh(d, a)
    ensures var e := Step(d, a, now).0; DeskOk(e, now) && Keeps(d, e)
  {
    hide DeskOk, Keeps;
    NothingLost(d);
    match a
    case CreateAct(idem, trade, buyer, host, id, ttl) =>
      CreateKeeps(d, KeyOf(idem, trade, buyer, host), trade, buyer, id, ttl, now);
    case GetAct(id, caller) =>
      if id in d.sessions && d.sessions[id].expiresAt <= now { SetStateKeeps(d, id, Expired, now); }
    case CancelAct(id, caller) =>
      if id in d.sessions && CanTransitionTo(d.sessions[id].state, Cancelled) {
        PendingHasNoProof(d, id, now);
        SetStateKeeps(d, id, Cancelled, now);
      }
    case ProcessAct(id, buyer, trade, outcome, signed, pid, ok) =>
      ProcessKeeps(d, id, buyer, trade, outcome, signed, pid, ok, now);
  }

  // ---- Runs ----------------------------------------------------------------------------------------------

  datatype Timed = Timed(act: Act, now: Time)

  ghost predicate Next(d: Desk, a: Timed, e: Desk) { Fresh(d, a.act) && e == Step(d, a.act, a.now).0 }

  /** A run from empty tables; the clock never goes back. */
  ghost predicate IsRun(desks: seq<Desk>, acts: seq<Timed>) {
    && |desks| == |acts| + 1 && desks[0] == EmptyDesk()
    && (forall i :: 0 <= i < |acts| ==> Next(desks[i], acts[i], desks[i + 1]))
    && (forall i, j :: 0 <= i < j < |acts| ==> acts[i].now <= acts[j].now)
  }

  lemma LaterIsOk(d: Desk, now: Time, later: Time)
    requires DeskOk(d, now) && now <= later
    ensures DeskOk(d, later)
  {}

  /** `now` is not before any of the first `n` steps. */
  predicate NotBefore(acts: seq<Timed>, n: nat, now: Time) {
    forall i :: 0 <= i < n && i < |acts| ==> acts[i].now <= now
  }

  lemma {:induction false} RunKeeps(desks: seq<Desk>, acts: seq<Timed>, n: nat, now: Time)
    requires IsRun(desks, acts) && n <= |acts| && NotBefore(acts, n, now)
    ensures DeskOk(desks[n], now)
  {
    hide DeskOk, Step, Keeps;
    if n == 0 {
      EmptyOk(now);
    } else {
      var a := acts[n - 1];
      RunKeeps(desks, acts, n - 1, a.now);
      assert Next(desks[n - 1], a, desks[n]);
      StepKeeps(desks[n - 1], a.act, a.now);
      LaterIsOk(desks[n], a.now, now);
    }
  }

  lemma EmptyOk(now: Time)
    ensures DeskOk(EmptyDesk(), now)
  {}

  /** A non-empty payment reference seen at the same server. */
  predicate SameReference(a: Evidence, b: Evidence) {
    a.reference != "" && b.reference != "" && a.server == b.server && Lower(a.reference) == Lower(b.reference)
  }

  /** Each session yields at most one proof, a transcript digest belongs to at most one proof, and a
      reference seen at a server to proofs of one trade only. */
  lemma ProofsAreExclusive(desks: seq<Desk>, acts: seq<Timed>, n: nat, x: ProofId, y: ProofId)
    requires IsRun(desks, acts) && n <= |acts| && x in desks[n].proofs && y in desks[n].proofs
    ensures var p, q := desks[n].proofs[x], desks[n].proofs[y];
            && (p.session == q.session ==> x == y)
            && (p.evidence.digest == q.evidence.digest ==> x == y)
            && (SameReference(p.evidence, q.evidence) ==> p.trade == q.trade)
  {
    hide IsRun, Lower;
    RunShape(desks, acts);
    var now := if acts == [] then 0 else acts[|acts| - 1].now;
    RunKeeps(desks, acts, n, now);
    assert ProofOk(desks[n], x) && ProofOk(desks[n], y);
  }

  lemma RunShape(desks: seq<Desk>, acts: seq<Timed>)
    requires IsRun(desks, acts)
    ensures |desks| == |acts| + 1
    ensures acts != [] ==> NotBefore(acts, |acts|, acts[|acts| - 1].now)
  {}

  /** At every moment at most one session created under an idempotency key is live. */
  lemma OneLiveSession(desks: seq<Desk>, acts: seq<Timed>, n: nat, now: Time, x: SessionId, y: SessionId)
    requires IsRun(desks, acts) && n <= |acts| && NotBefore(acts, n, now)
    requires x in desks[n].sessions && y in desks[n].sessions
    requires x in desks[n].origin && y in desks[n].origin && desks[n].origin[x] == desks[n].origin[y]
    requires Live(desks[n].sessions[x], now) && Live(desks[n].sessions[y], now)
    ensures x == y
  {
    hide IsRun, Live;
    RunShape(desks, acts);
    RunKeeps(desks, acts, n, now);
  }

  /** Proofs, spent digests and spent references are permanent, and no session becomes pending again. */
  lemma {:induction false} NothingIsUndone(desks: seq<Desk>, acts: seq<Timed>, i: nat, j: nat)
    requires IsRun(desks, acts) && i <= j <= |acts|
    ensures Keeps(desks[i], desks[j])
    decreases j
  {
    hide DeskOk, Step, Keeps;
    if i < j {
      NothingIsUndone(desks, acts, i, j - 1);
      RunKeeps(desks, acts, j - 1, acts[j - 1].now);
      assert Next(desks[j - 1], acts[j - 1], desks[j]);
      StepKeeps(desks[j - 1], acts[j - 1].act, acts[j - 1].now);
      KeepsTwice(desks[i], desks[j - 1], desks[j]);
    } else {
      NothingLost(desks[i]);
    }
  }

  /** A proof is made only for a session that was pending, for its own trade, with fresh evidence. */
  lemma ProofNeedsPending(d: Desk, a: Act, now: Time, pid: ProofId)
    requires pid !in d.proofs && pid in Step(d, a, now).0.proofs
    ensures && a.ProcessAct? && a.pid == pid && a.id in d.sessions && d.sessions[a.id].state == Pending
            && d.sessions[a.id].expiresAt > now && a.outcome.Some? && a.signed
            && Step(d, a, now).0.proofs[pid] == Proof(a.id, d.sessions[a.id].trade, a.outcome.value)
            && (a.outcome.value.digest in d.digests ==> d.digests[a.outcome.value.digest] == a.id)
  {}

  /** A session that left Pending without being verified never yields a proof: a rejected presentation, a
      replay, or a failure to sign cannot be retried on it. */
  lemma {:induction false} NoSecondAttempt(desks: seq<Desk>, acts: seq<Timed>, i: nat, j: nat, id: SessionId)
    requires IsRun(desks, acts) && i <= j <= |acts|
    requires id in desks[i].sessions && desks[i].sessions[id].state !in {Pending, Verified, Expired}
    ensures forall pid :: pid in desks[j].proofs ==> desks[j].proofs[pid].session != id
    decreases j
  {
    hide DeskOk, Step, Keeps, IsRun;
    RunShape(desks, acts);
    if i < j {
      NoSecondAttempt(desks, acts, i, j - 1, id);
      NothingIsUndone(desks, acts, i, j - 1);
      StillNotPending(desks[i], desks[j - 1], id);
      StepOf(desks, acts, j - 1);
      forall pid | pid in desks[j].proofs
        ensures desks[j].proofs[pid].session != id
      {
        if pid in desks[j - 1].proofs {
          NothingIsUndone(desks, acts, j - 1, j);
          SameProof(desks[j - 1], desks[j], pid);
        } else {
          ProofNeedsPending(desks[j - 1], acts[j - 1].act, acts[j - 1].now, pid);
        }
      }
    } else {
      var now := if acts == [] then 0 else acts[|acts| - 1].now;
      RunKeeps(desks, acts, i, now);
      NoProofYet(desks[i], id, now);
    }
  }

  lemma StepOf(desks: seq<Desk>, acts: seq<Timed>, i: nat)
    requires IsRun(desks, acts) && i < |acts|
    ensures desks[i + 1] == Step(desks[i], acts[i].act, acts[i].now).0
  {
    hide Step;
    assert Next(desks[i], acts[i], desks[i + 1]);
  }

  lemma StillNotPending(d: Desk, e: Desk, id: SessionId)
    requires Keeps(d, e) && id in d.sessions && d.sessions[id].state != Pending
    ensures id in e.sessions && e.sessions[id].state != Pending
  {}

  lemma SameProof(d: Desk, e: Desk, pid: ProofId)
    requires Keeps(d, e) && pid in d.proofs
    ensures pid in e.proofs && e.proofs[pid] == d.proofs[pid]
  {}

  lemma NoProofYet(d: Desk, id: SessionId, now: Time)
    requires DeskOk(d, now) && id in d.sessions && d.sessions[id].state !in {Verified, Expired}
    ensures forall pid :: pid in d.proofs ==> d.proofs[pid].session != id
  {
    forall pid | pid in d.proofs
      ensures d.proofs[pid].session != id
    {
      assert ProofOk(d, pid);
    }
  }

  // ---- The transition table ----------------------------------------------------------------------------

  lemma RecordMoves(d: Desk, id: SessionId, e: Evidence, signed: bool, pid: ProofId)
    requires id in d.sessions
    ensures var r := Record(d, id, e, signed, pid).0;
            && id in r.sessions && r.sessions == d.sessions[id := r.sessions[id]]
            && r.sessions[id].state in {d.sessions[id].state, Failed, Verified}
  {
    hide ReferenceKey;
  }

  predicate OffTable(d: Desk, e: Desk, id: SessionId) {
    && id in d.sessions && id in e.sessions && e.sessions[id].state != d.sessions[id].state
    && !CanTransitionTo(d.sessions[id].state, e.sessions[id].state)
  }

  /** A presentation is sent for a session that is past its deadline. */
  predicate PresentsTooLate(d: Desk, a: Act, now: Time, id: SessionId) {
    && a.ProcessAct? && a.id == id && a.limiterOk && id in d.sessions
    && a.buyer == d.sessions[id].buyer && a.trade == d.sessions[id].trade && d.sessions[id].expiresAt <= now
  }

  lemma OtherActsOnTable(d: Desk, a: Act, now: Time, id: SessionId)
    requires id in d.sessions && Fresh(d, a) && !a.ProcessAct?
    ensures !OffTable(d, Step(d, a, now).0, id)
  {
    hide Process;
  }

  lemma ProcessOnTable(d: Desk, a: Act, now: Time, id: SessionId)
    requires id in d.sessions && a.ProcessAct? && !PresentsTooLate(d, a, now, id)
    ensures !OffTable(d, Step(d, a, now).0, id)
  {
    hide Record, Create;
    if a.id in d.sessions && a.outcome.Some? {
      RecordMoves(SetState(d, a.id, Executing), a.id, a.outcome.value, a.signed, a.pid);
    }
  }

  lemma TooLateExpires(d: Desk, a: Act, now: Time, id: SessionId)
    requires PresentsTooLate(d, a, now, id)
    ensures Step(d, a, now).0 == SetState(d, id, Expired)
  {
    hide Record, Create;
  }

  /** A step leaves the table exactly when a presentation arrives for a session that is past its
      deadline and had already ended; its state is then overwritten with Expired. */
  lemma OffTableExactly(d: Desk, a: Act, now: Time, id: SessionId)
    requires id in d.sessions && Fresh(d, a)
    ensures OffTable(d, Step(d, a, now).0, id)
        <==> PresentsTooLate(d, a, now, id) && d.sessions[id].state in {Verified, Failed, Cancelled}
  {
    hide Step, Fresh;
    if PresentsTooLate(d, a, now, id) {
      TooLateExpires(d, a, now, id);
    } else if a.ProcessAct? {
      ProcessOnTable(d, a, now, id);
    } else {
      OtherActsOnTable(d, a, now, id);
    }
  }

  // ---- The tables, updated in place --------------------------------------------------------------------

  class SessionDesk {
    var sessions: map<SessionId, Session>
    var byKey: map<string, SessionId>
    var digests: map<Digest, SessionId>
    var references: map<string, string>
    var proofs: map<ProofId, Proof>
    ghost var origin: map<SessionId, string>

    ghost function Model(): Desk
      reads this
    {
      Desk(sessions, byKey, digests, references, proofs, origin)
    }

    constructor ()
      ensures Model() == EmptyDesk()
    {
      sessions, byKey, digests, references, proofs := map[], map[], map[], map[], map[];
      origin := map[];
    }

    method CreateSession(
      idempotencyKey: Option<string>, trade: string, buyer: string, host: string, id: SessionId, ttl: nat, now: Time)
      returns (answer: Answer)
      modifies this`sessions, this`byKey, this`origin
      ensures (Model(), answer)
           == Create(old(Model()), KeyOf(idempotencyKey, trade, buyer, host), trade, buyer, id, ttl, now)
    {
      var key := KeyOf(idempotencyKey, trade, buyer, host);
      if key in byKey && byKey[key] in sessions {
        var existing := sessions[byKey[key]];
        if existing.expiresAt > now && existing.state != Cancelled && existing.state != Failed {
          return Given(byKey[key]);
        }
      }
      sessions := sessions[id := Session(trade, buyer, Pending, None, now + ttl)];
      byKey := byKey[key := id];
      origin := origin[id := key];
      answer := Given(id);
    }

    method GetSession(id: SessionId, caller: Option<string>, now: Time) returns (answer: Answer)
      modifies this`sessions
      ensures (Model(), answer) == Get(old(Model()), id, caller, now)
    {
      if id !in sessions { return Denied(NotFound); }
      var s := sessions[id];
      if caller.Some? && caller.value != s.buyer { return Denied(CrossUser); }
      if s.state == Pending && s.expiresAt <= now {
        sessions := sessions[id := s.(state := Expired)];
      }
      answer := Given(id);
    }

    method CancelSession(id: SessionId, caller: Option<string>) returns (answer: Answer)
      modifies this`sessions
      ensures (Model(), answer) == Cancel(old(Model()), id, caller)
    {
      if id !in sessions { return Denied(NotFound); }
      var s := sessions[id];
      if caller.Some? && caller.value != s.buyer { return Denied(CrossUser); }
      if !CanTransitionTo(s.state, Cancelled) { return Denied(NotCancellable); }
      sessions := sessions[id := s.(state := Cancelled)];
      answer := Given(id);
    }

    /** The anti-replay checks and the new proof, in the order of the source. */
    method RecordProof(id: SessionId, e: Evidence, signed: bool, pid: ProofId) returns (answer: Answer)
      requires id in sessions
      modifies this`sessions, this`digests, this`references, this`proofs
      ensures (Model(), answer) == Record(old(Model()), id, e, signed, pid)
    {
      var s := sessions[id];
      if e.digest in digests && digests[e.digest] != id {
        sessions := sessions[id := s.(state := Failed)];
        return Denied(ReplayedTranscript);
      }
      if e.reference != "" {
        var key := ReferenceKey(e);
        if key in references && references[key] != s.trade {
          sessions := sessions[id := s.(state := Failed)];
          return Denied(DuplicateReference);
        }
        references := references[key := s.trade];
      }
      digests := digests[e.digest := id];
      if !signed { return Denied(SigningFailed); }
      proofs := proofs[pid := Proof(id, s.trade, e)];
      sessions := sessions[id := s.(state := Verified, proof := Some(pid))];
      answer := Given(pid);
    }

    method ProcessProofVerification(
      id: SessionId, buyer: string, trade: string, outcome: Option<Evidence>, signed: bool, pid: ProofId,
      limiterOk: bool, now: Time) returns (answer: Answer)
      modifies this`sessions, this`digests, this`references, this`proofs
      ensures (Model(), answer) == Process(old(Model()), id, buyer, trade, outcome, signed, pid, limiterOk, now)
    {
      hide Record;
      if !limiterOk { return Denied(TooMany); }
      if id !in sessions { return Denied(NotFound); }
      var s := sessions[id];
      if s.buyer != buyer { return Denied(PrincipalMismatch); }
      if s.trade != trade { return Denied(TradeMismatch); }
      if s.expiresAt <= now {
        sessions := sessions[id := s.(state := Expired)];
        return Denied(SessionExpired);
      }
      if s.state == Verified && s.proof.Some? && s.proof.value in proofs { return Given(s.proof.value); }
      if !CanTransitionTo(s.state, Executing) { return Denied(InvalidState); }
      sessions := sessions[id := s.(state := Executing)];
      if outcome.None? {
        sessions := sessions[id := sessions[id].(state := Failed)];
        return Denied(PresentationRejected);
      }
      answer := RecordProof(id, outcome.value, signed, pid);
    }
  }
}
