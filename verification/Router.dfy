/**
 * The opportunity router: one decision over a snapshot of claims, and what every run of
 * proposing, committing by compare-and-set, and reconciling keeps.
 */
module Router {
  import opened Common

  datatype Strategy = DirectionalEdge | StructuralArbitrage | Dual40

  datatype Candidate = Candidate(
    candidateId: string, strategy: Strategy, requiredCapital: real, expectedNetValue: real, expiresAt: int)

  datatype Opportunity = Opportunity(
    candidate: Candidate, conditionId: string, tokenIds: seq<string>, score: real, certainty: real)

  datatype Status = Active | Reconciled

  datatype Claim = Claim(
    claimId: string,
    idempotencyKey: string,
    candidateId: string,
    conditionId: string,
    tokenIds: seq<string>,
    strategy: Strategy,
    reserved: real,
    createdAt: int,
    expiresAt: int,
    status: Status,
    reconciledAt: Option<int>)

  datatype Snapshot = Snapshot(revision: nat, claims: seq<Claim>, unresolved: seq<string>)

  /** The priority names every strategy, but only as a set: repetitions pass its constructor. */
  datatype Policy = Policy(version: string, priority: seq<Strategy>, dual40Enabled: bool)

  predicate ValidPolicy(p: Policy) {
    forall s: Strategy :: s in p.priority
  }

  predicate ValidOpportunity(o: Opportunity) {
    o.candidate.requiredCapital > 0.0 && o.tokenIds != [] && NoDuplicates(o.tokenIds)
  }

  /** What the claim constructor demands. */
  predicate ValidClaim(c: Claim) {
    && c.tokenIds != [] && NoDuplicates(c.tokenIds)
    && c.reserved > 0.0
    && c.createdAt < c.expiresAt
    && (c.status == Reconciled <==> c.reconciledAt.Some?)
    && (c.reconciledAt.Some? ==> c.createdAt <= c.reconciledAt.value)
  }

  /** What the snapshot constructor demands. */
  predicate ValidSnapshot(s: Snapshot) {
    && (forall i :: 0 <= i < |s.claims| ==> ValidClaim(s.claims[i]))
    && (forall i, j :: 0 <= i < j < |s.claims| ==>
          s.claims[i].claimId != s.claims[j].claimId && s.claims[i].idempotencyKey != s.claims[j].idempotencyKey)
    && NoDuplicates(s.unresolved)
  }

  // ---------------------------------------------------------------- the ranking

  function LastIndex(p: seq<Strategy>, s: Strategy): (i: nat)
    requires s in p
    ensures i < |p| && p[i] == s && forall k :: i < k < |p| ==> p[k] != s
  {
    if p[|p| - 1] == s then |p| - 1 else LastIndex(p[..|p| - 1], s)
  }

  /** Text order by code points, a prefix first. */
  predicate TextBefore(a: string, b: string) {
    if a == [] then b != []
    else b != [] && (a[0] < b[0] || (a[0] == b[0] && TextBefore(a[1..], b[1..])))
  }

  lemma {:induction false} TextOrderTotal(a: string, b: string)
    ensures a == b || TextBefore(a, b) || TextBefore(b, a)
    ensures !(TextBefore(a, b) && TextBefore(b, a)) && !TextBefore(a, a)
  {
    if a != [] && b != [] && a[0] == b[0] {
      TextOrderTotal(a[1..], b[1..]);
      assert a == [a[0]] + a[1..] && b == [b[0]] + b[1..];
    }
    if a != [] {
      TextOrderTotal(a[1..], a[1..]);
    }
  }

  lemma {:induction false} TextOrderTransitive(a: string, b: string, c: string)
    requires TextBefore(a, b) && TextBefore(b, c)
    ensures TextBefore(a, c)
  {
    if a != [] && a[0] == b[0] == c[0] {
      TextOrderTransitive(a[1..], b[1..], c[1..]);
    }
  }

  /** Strictly preferred: priority, then score, certainty and value downward, then candidate id. */
  predicate Preferred(a: Opportunity, b: Opportunity, p: Policy)
    requires ValidPolicy(p)
  {
    var i, j := LastIndex(p.priority, a.candidate.strategy), LastIndex(p.priority, b.candidate.strategy);
    i < j || (i == j && (
      a.score > b.score || (a.score == b.score && (
        a.certainty > b.certainty || (a.certainty == b.certainty && (
          a.candidate.expectedNetValue > b.candidate.expectedNetValue
          || (a.candidate.expectedNetValue == b.candidate.expectedNetValue
              && TextBefore(a.candidate.candidateId, b.candidate.candidateId))))))))
  }

  lemma PreferredIsStrictOrder(a: Opportunity, b: Opportunity, c: Opportunity, p: Policy)
    requires ValidPolicy(p)
    ensures !(Preferred(a, b, p) && Preferred(b, a, p)) && !Preferred(a, a, p)
    ensures a.candidate.candidateId != b.candidate.candidateId ==> Preferred(a, b, p) || Preferred(b, a, p)
    ensures Preferred(a, b, p) && Preferred(b, c, p) ==> Preferred(a, c, p)
  {
    TextOrderTotal(a.candidate.candidateId, b.candidate.candidateId);
    if TextBefore(a.candidate.candidateId, b.candidate.candidateId)
       && TextBefore(b.candidate.candidateId, c.candidate.candidateId) {
      TextOrderTransitive(a.candidate.candidateId, b.candidate.candidateId, c.candidate.candidateId);
    }
  }

  // ---------------------------------------------------------------- one decision

  datatype Rejection =
    | CandidateExpired
    | Dual40Disabled
    | DuplicateCandidate
    | UnresolvedStructuralOneLeg
    | ConditionAlreadyClaimed
    | TokenAlreadyClaimed
    | CapitalAlreadyClaimed

  datatype Verdict =
    | CapitalStateUnavailable
    | ClaimReconciliationRequired
    | NoEligibleOpportunity
    | InsufficientUnclaimedCapital
    | ClaimProposed

  datatype Decision = Decision(
    selected: Option<Opportunity>,
    claim: Option<Claim>,
    verdict: Verdict,
    rejected: seq<(string, Rejection)>,
    expectedRevision: nat,
    policyVersion: string)

  predicate SharesToken(a: seq<string>, b: seq<string>) {
    exists t :: t in a && t in b
  }

  function ConflictReason(o: Opportunity, s: Snapshot, p: Policy, now: int): Option<Rejection> {
    if o.candidate.expiresAt <= now then Some(CandidateExpired)
    else if o.candidate.strategy == Dual40 && !p.dual40Enabled then Some(Dual40Disabled)
    else if exists c :: c in s.claims && c.candidateId == o.candidate.candidateId then Some(DuplicateCandidate)
    else if o.conditionId in s.unresolved then Some(UnresolvedStructuralOneLeg)
    else if exists c :: c in s.claims && c.status == Active && c.conditionId == o.conditionId
      then Some(ConditionAlreadyClaimed)
    else if exists c :: c in s.claims && c.status == Active && SharesToken(c.tokenIds, o.tokenIds)
      then Some(TokenAlreadyClaimed)
    else None
  }

  /** Capital held by the active claims. */
  function Reserved(claims: seq<Claim>): real {
    if claims == [] then 0.0
    else Reserved(claims[..|claims| - 1])
         + if claims[|claims| - 1].status == Active then claims[|claims| - 1].reserved else 0.0
  }

  predicate Funded(o: Opportunity, s: Snapshot, capital: real) {
    o.candidate.requiredCapital <= capital - Reserved(s.claims)
  }

  function ClaimFor(o: Opportunity, now: int): Claim {
    Claim("claim:" + o.candidate.candidateId, "route:" + o.candidate.candidateId, o.candidate.candidateId,
          o.conditionId, o.tokenIds, o.candidate.strategy, o.candidate.requiredCapital, now,
          o.candidate.expiresAt, Active, None)
  }

  predicate Fundable(o: Opportunity, s: Snapshot, capital: real, p: Policy, now: int) {
    ConflictReason(o, s, p, now).None? && Funded(o, s, capital)
  }

  predicate SomeClaimExpired(s: Snapshot, now: int) {
    exists c :: c in s.claims && c.status == Active && c.expiresAt <= now
  }

  /** Rejections in the order they are appended: conflicts in one pass, then the unfunded in another. */
  function Conflicts(os: seq<Opportunity>, s: Snapshot, p: Policy, now: int): seq<(string, Rejection)> {
    if os == [] then []
    else
      var r := ConflictReason(os[|os| - 1], s, p, now);
      Conflicts(os[..|os| - 1], s, p, now)
      + if r.Some? then [(os[|os| - 1].candidate.candidateId, r.value)] else []
  }

  function Eligible(os: seq<Opportunity>, s: Snapshot, p: Policy, now: int): seq<Opportunity> {
    if os == [] then []
    else Eligible(os[..|os| - 1], s, p, now)
         + if ConflictReason(os[|os| - 1], s, p, now).None? then [os[|os| - 1]] else []
  }

  function FundedOf(es: seq<Opportunity>, s: Snapshot, capital: real): seq<Opportunity> {
    if es == [] then []
    else FundedOf(es[..|es| - 1], s, capital) + if Funded(es[|es| - 1], s, capital) then [es[|es| - 1]] else []
  }

  function Unfunded(es: seq<Opportunity>, s: Snapshot, capital: real): seq<(string, Rejection)> {
    if es == [] then []
    else Unfunded(es[..|es| - 1], s, capital)
         + if Funded(es[|es| - 1], s, capital) then []
           else [(es[|es| - 1].candidate.candidateId, CapitalAlreadyClaimed)]
  }

  /** The first of the most preferred, as a left-to-right minimum finds it. */
  function Best(fs: seq<Opportunity>, p: Policy): (o: Opportunity)
    requires ValidPolicy(p) && fs != []
    ensures o in fs
  {
    if |fs| == 1 then fs[0]
    else
      var b := Best(fs[..|fs| - 1], p);
      if Preferred(fs[|fs| - 1], b, p) then fs[|fs| - 1] else b
  }

  function Nothing(s: Snapshot, p: Policy, v: Verdict, rejected: seq<(string, Rejection)>): Decision {
    Decision(None, None, v, rejected, s.revision, p.version)
  }

  function Route(os: seq<Opportunity>, s: Snapshot, capital: Option<real>, p: Policy, now: int): Decision
    requires ValidPolicy(p)
  {
    if capital.None? then Nothing(s, p, CapitalStateUnavailable, [])
    else if SomeClaimExpired(s, now) then Nothing(s, p, ClaimReconciliationRequired, [])
    else
      var es := Eligible(os, s, p, now);
      if es == [] then Nothing(s, p, NoEligibleOpportunity, Conflicts(os, s, p, now))
      else
        var fs := FundedOf(es, s, capital.value);
        var rejected := Conflicts(os, s, p, now) + Unfunded(es, s, capital.value);
        if fs == [] then Nothing(s, p, InsufficientUnclaimedCapital, rejected)
        else
          var o := Best(fs, p);
          Decision(Some(o), Some(ClaimFor(o, now)), ClaimProposed, rejected, s.revision, p.version)
  }

  // ---------------------------------------------------------------- what a decision means

  lemma {:induction false} EligibleAre(os: seq<Opportunity>, s: Snapshot, p: Policy, now: int)
    ensures forall o :: o in Eligible(os, s, p, now) <==> o in os && ConflictReason(o, s, p, now).None?
    ensures |Eligible(os, s, p, now)| + |Conflicts(os, s, p, now)| == |os|
  {
    if os != [] {
      EligibleAre(os[..|os| - 1], s, p, now);
      assert os == os[..|os| - 1] + [os[|os| - 1]];
    }
  }

  lemma {:induction false} FundedAre(es: seq<Opportunity>, s: Snapshot, capital: real)
    ensures forall o :: o in FundedOf(es, s, capital) <==> o in es && Funded(o, s, capital)
    ensures |FundedOf(es, s, capital)| + |Unfunded(es, s, capital)| == |es|
  {
    if es != [] {
      FundedAre(es[..|es| - 1], s, capital);
      assert es == es[..|es| - 1] + [es[|es| - 1]];
    }
  }

  lemma {:induction false} BestIsUnbeaten(fs: seq<Opportunity>, p: Policy, o: Opportunity)
    requires ValidPolicy(p) && o in fs
    ensures !Preferred(o, Best(fs, p), p)
  {
    var last, init := fs[|fs| - 1], fs[..|fs| - 1];
    if |fs| == 1 {
      PreferredIsStrictOrder(o, o, o, p);
    } else {
      var b := Best(init, p);
      assert o in init || o == last;
      if o in init {
        BestIsUnbeaten(init, p, o);
        NotPreferredThrough(o, b, last, p);
      }
      PreferredIsStrictOrder(last, last, last, p);
    }
  }

  /** If a does not beat b and c beats b, then a does not beat c. */
  lemma NotPreferredThrough(a: Opportunity, b: Opportunity, c: Opportunity, p: Policy)
    requires ValidPolicy(p) && !Preferred(a, b, p)
    ensures Preferred(c, b, p) ==> !Preferred(a, c, p)
  {
    PreferredIsStrictOrder(a, c, b, p);
  }

  /**
   * Past the early returns a decision proposes a claim exactly when some opportunity is fundable;
   * the one it selects is beaten by no other fundable one.
   */
  lemma SelectedIsMostPreferred(os: seq<Opportunity>, s: Snapshot, capital: real, p: Policy, now: int)
    requires ValidPolicy(p) && !SomeClaimExpired(s, now)
    ensures var d := Route(os, s, Some(capital), p, now);
            && (d.selected.Some? <==> exists o :: o in os && Fundable(o, s, capital, p, now))
            && (d.selected.Some? ==>
                  && d.selected.value in os
                  && Fundable(d.selected.value, s, capital, p, now)
                  && d.claim == Some(ClaimFor(d.selected.value, now))
                  && forall o :: o in os && Fundable(o, s, capital, p, now) ==> !Preferred(o, d.selected.value, p))
  {
    EligibleAre(os, s, p, now);
    var es := Eligible(os, s, p, now);
    FundedAre(es, s, capital);
    var fs := FundedOf(es, s, capital);
    forall o | o in os && Fundable(o, s, capital, p, now) ensures o in fs && !Preferred(o, Best(fs, p), p) {
      BestIsUnbeaten(fs, p, o);
    }
    if fs != [] {
      assert fs[0] in os && Fundable(fs[0], s, capital, p, now);
    }
  }

  /** How a decision answers one opportunity: with a reason, or by funding it. */
  function Answer(o: Opportunity, s: Snapshot, capital: real, p: Policy, now: int): Option<Rejection> {
    var reason := ConflictReason(o, s, p, now);
    if reason.Some? then reason else if Funded(o, s, capital) then None else Some(CapitalAlreadyClaimed)
  }

  /** An answer for the candidate, with the given reason or, without one, with any. */
  predicate Names(x: (string, Rejection), id: string, reason: Option<Rejection>) {
    x.0 == id && (reason.Some? ==> x.1 == reason.value)
  }

  /** How often a list of rejections answers the candidate so. */
  function Rejections(rs: seq<(string, Rejection)>, id: string, reason: Option<Rejection>): nat {
    if rs == [] then 0
    else Rejections(rs[..|rs| - 1], id, reason) + if Names(rs[|rs| - 1], id, reason) then 1 else 0
  }

  predicate AnsweredSo(
    o: Opportunity, s: Snapshot, capital: real, p: Policy, now: int, id: string, reason: Option<Rejection>)
  {
    var answer := Answer(o, s, capital, p, now);
    answer.Some? && Names((o.candidate.candidateId, answer.value), id, reason)
  }

  /** How many opportunities are to be answered so: each of the candidate's that is not fundable. */
  function Unfundable(
    os: seq<Opportunity>, s: Snapshot, capital: real, p: Policy, now: int, id: string, reason: Option<Rejection>): nat
  {
    if os == [] then 0
    else Unfundable(os[..|os| - 1], s, capital, p, now, id, reason)
         + if AnsweredSo(os[|os| - 1], s, capital, p, now, id, reason) then 1 else 0
  }

  lemma {:induction false} RejectionsOfBoth(
    rs: seq<(string, Rejection)>, qs: seq<(string, Rejection)>, id: string, reason: Option<Rejection>)
    ensures Rejections(rs + qs, id, reason) == Rejections(rs, id, reason) + Rejections(qs, id, reason)
  {
    if qs == [] {
      assert rs + qs == rs;
    } else {
      RejectionsOfBoth(rs, qs[..|qs| - 1], id, reason);
      assert (rs + qs)[..|rs| + |qs| - 1] == rs + qs[..|qs| - 1];
    }
  }

  lemma RejectionsOfOne(rs: seq<(string, Rejection)>, x: (string, Rejection), id: string, reason: Option<Rejection>)
    ensures Rejections(rs + [x], id, reason)
            == Rejections(rs, id, reason) + if Names(x, id, reason) then 1 else 0
  {
    assert (rs + [x])[..|rs|] == rs;
  }

  function One(condition: bool): nat {
    if condition then 1 else 0
  }

  lemma LastConflict(
    os: seq<Opportunity>, s: Snapshot, p: Policy, now: int, id: string, reason: Option<Rejection>)
    requires os != []
    ensures var o, front := os[|os| - 1], os[..|os| - 1];
            var conflict := ConflictReason(o, s, p, now);
            Rejections(Conflicts(os, s, p, now), id, reason)
            == Rejections(Conflicts(front, s, p, now), id, reason)
               + One(conflict.Some? && Names((o.candidate.candidateId, conflict.value), id, reason))
  {
    var o, front := os[|os| - 1], os[..|os| - 1];
    var conflict := ConflictReason(o, s, p, now);
    if conflict.Some? {
      RejectionsOfOne(Conflicts(front, s, p, now), (o.candidate.candidateId, conflict.value), id, reason);
    } else {
      assert Conflicts(os, s, p, now) == Conflicts(front, s, p, now);
    }
  }

  lemma LastUnfunded(
    es: seq<Opportunity>, o: Opportunity, s: Snapshot, capital: real, id: string, reason: Option<Rejection>)
    ensures Rejections(Unfunded(es + [o], s, capital), id, reason)
            == Rejections(Unfunded(es, s, capital), id, reason)
               + One(!Funded(o, s, capital) && Names((o.candidate.candidateId, CapitalAlreadyClaimed), id, reason))
  {
    assert (es + [o])[..|es|] == es;
    if Funded(o, s, capital) {
      assert Unfunded(es + [o], s, capital) == Unfunded(es, s, capital);
    } else {
      RejectionsOfOne(Unfunded(es, s, capital), (o.candidate.candidateId, CapitalAlreadyClaimed), id, reason);
    }
  }

  lemma LastEligible(
    os: seq<Opportunity>, s: Snapshot, capital: real, p: Policy, now: int, id: string, reason: Option<Rejection>)
    requires os != []
    ensures var o, front := os[|os| - 1], os[..|os| - 1];
            Rejections(Unfunded(Eligible(os, s, p, now), s, capital), id, reason)
            == Rejections(Unfunded(Eligible(front, s, p, now), s, capital), id, reason)
               + One(ConflictReason(o, s, p, now).None? && !Funded(o, s, capital)
                     && Names((o.candidate.candidateId, CapitalAlreadyClaimed), id, reason))
  {
    var o, front := os[|os| - 1], os[..|os| - 1];
    if ConflictReason(o, s, p, now).None? {
      LastUnfunded(Eligible(front, s, p, now), o, s, capital, id, reason);
    } else {
      assert Eligible(os, s, p, now) == Eligible(front, s, p, now);
    }
  }

  lemma {:induction false} BothPassesAnswer(
    os: seq<Opportunity>, s: Snapshot, capital: real, p: Policy, now: int, id: string, reason: Option<Rejection>)
    ensures Rejections(Conflicts(os, s, p, now), id, reason)
            + Rejections(Unfunded(Eligible(os, s, p, now), s, capital), id, reason)
            == Unfundable(os, s, capital, p, now, id, reason)
  {
    if os != [] {
      BothPassesAnswer(os[..|os| - 1], s, capital, p, now, id, reason);
      LastConflict(os, s, p, now, id, reason);
      LastEligible(os, s, capital, p, now, id, reason);
    }
  }

  /** How many opportunities of a candidate cannot be funded, for whatever reason. */
  function NotFundable(os: seq<Opportunity>, s: Snapshot, capital: real, p: Policy, now: int, id: string): nat {
    if os == [] then 0
    else
      var o := os[|os| - 1];
      NotFundable(os[..|os| - 1], s, capital, p, now, id)
      + if o.candidate.candidateId == id && !Fundable(o, s, capital, p, now) then 1 else 0
  }

  lemma AnsweredMeansNotFundable(o: Opportunity, s: Snapshot, capital: real, p: Policy, now: int, id: string)
    ensures AnsweredSo(o, s, capital, p, now, id, None)
            <==> o.candidate.candidateId == id && !Fundable(o, s, capital, p, now)
  {
  }

  lemma {:induction false} UnfundableForSomeReason(
    os: seq<Opportunity>, s: Snapshot, capital: real, p: Policy, now: int, id: string)
    ensures Unfundable(os, s, capital, p, now, id, None) == NotFundable(os, s, capital, p, now, id)
  {
    if os != [] {
      UnfundableForSomeReason(os[..|os| - 1], s, capital, p, now, id);
      AnsweredMeansNotFundable(os[|os| - 1], s, capital, p, now, id);
    }
  }

  /**
   * Each opportunity is answered once: a candidate is rejected, with each reason, exactly as often
   * as an opportunity of its id is not fundable for that reason, and in all as often as one is not
   * fundable; the rest are funded.
   */
  lemma EveryOpportunityAnswered(
    os: seq<Opportunity>, s: Snapshot, capital: real, p: Policy, now: int, id: string, reason: Option<Rejection>)
    requires ValidPolicy(p) && !SomeClaimExpired(s, now)
    ensures var d := Route(os, s, Some(capital), p, now);
            && Rejections(d.rejected, id, reason) == Unfundable(os, s, capital, p, now, id, reason)
            && Rejections(d.rejected, id, None) == NotFundable(os, s, capital, p, now, id)
            && |d.rejected| + |FundedOf(Eligible(os, s, p, now), s, capital)| == |os|
  {
    EligibleAre(os, s, p, now);
    FundedAre(Eligible(os, s, p, now), s, capital);
    assert Route(os, s, Some(capital), p, now).rejected
           == Conflicts(os, s, p, now) + Unfunded(Eligible(os, s, p, now), s, capital);
    RejectionsAreUnfundable(os, s, capital, p, now, id, reason);
    RejectionsAreUnfundable(os, s, capital, p, now, id, None);
    UnfundableForSomeReason(os, s, capital, p, now, id);
  }

  lemma RejectionsAreUnfundable(
    os: seq<Opportunity>, s: Snapshot, capital: real, p: Policy, now: int, id: string, reason: Option<Rejection>)
    ensures Rejections(Conflicts(os, s, p, now) + Unfunded(Eligible(os, s, p, now), s, capital), id, reason)
            == Unfundable(os, s, capital, p, now, id, reason)
  {
    BothPassesAnswer(os, s, capital, p, now, id, reason);
    RejectionsOfBoth(Conflicts(os, s, p, now), Unfunded(Eligible(os, s, p, now), s, capital), id, reason);
  }

  lemma {:induction false} ConflictsAre(os: seq<Opportunity>, s: Snapshot, p: Policy, now: int, x: (string, Rejection))
    ensures x in Conflicts(os, s, p, now) <==>
            exists o :: o in os && o.candidate.candidateId == x.0 && ConflictReason(o, s, p, now) == Some(x.1)
  {
    if os != [] {
      ConflictsAre(os[..|os| - 1], s, p, now, x);
      assert os == os[..|os| - 1] + [os[|os| - 1]];
    }
  }

  lemma {:induction false} UnfundedAre(es: seq<Opportunity>, s: Snapshot, capital: real, x: (string, Rejection))
    ensures x in Unfunded(es, s, capital) <==>
            && x.1 == CapitalAlreadyClaimed
            && exists o :: o in es && o.candidate.candidateId == x.0 && !Funded(o, s, capital)
  {
    if es != [] {
      UnfundedAre(es[..|es| - 1], s, capital, x);
      assert es == es[..|es| - 1] + [es[|es| - 1]];
    }
  }

  predicate DistinctCandidates(os: seq<Opportunity>) {
    forall i, j :: 0 <= i < |os| && 0 <= j < |os| && os[i].candidate.candidateId == os[j].candidate.candidateId ==>
      os[i] == os[j]
  }

  lemma SameRejections(
    os: seq<Opportunity>, qs: seq<Opportunity>, s: Snapshot, capital: real, p: Policy, now: int, x: (string, Rejection))
    requires ValidPolicy(p) && !SomeClaimExpired(s, now) && forall o :: o in os <==> o in qs
    ensures x in Route(os, s, Some(capital), p, now).rejected <==> x in Route(qs, s, Some(capital), p, now).rejected
  {
    var es, gs := Eligible(os, s, p, now), Eligible(qs, s, p, now);
    EligibleAre(os, s, p, now);
    EligibleAre(qs, s, p, now);
    ConflictsAre(os, s, p, now, x);
    ConflictsAre(qs, s, p, now, x);
    UnfundedAre(es, s, capital, x);
    UnfundedAre(gs, s, capital, x);
    FundedAre(es, s, capital);
    FundedAre(gs, s, capital);
    assert es == [] ==> forall o :: o !in gs;
    assert gs == [] ==> forall o :: o !in es;
  }

  lemma SameSelection(os: seq<Opportunity>, qs: seq<Opportunity>, s: Snapshot, capital: real, p: Policy, now: int)
    requires ValidPolicy(p) && !SomeClaimExpired(s, now) && DistinctCandidates(os)
    requires forall o :: o in os <==> o in qs
    ensures Route(os, s, Some(capital), p, now).selected == Route(qs, s, Some(capital), p, now).selected
  {
    SelectedIsMostPreferred(os, s, capital, p, now);
    SelectedIsMostPreferred(qs, s, capital, p, now);
    var d, e := Route(os, s, Some(capital), p, now), Route(qs, s, Some(capital), p, now);
    if d.selected.Some? && e.selected.Some? {
      var a, b := d.selected.value, e.selected.value;
      PreferredIsStrictOrder(a, b, a, p);
      assert a.candidate.candidateId == b.candidate.candidateId;
    }
  }

  /** The order in which opportunities arrive does not matter: same selection, claim and rejections. */
  lemma RoutingIgnoresOrder(
    os: seq<Opportunity>, qs: seq<Opportunity>, s: Snapshot, capital: Option<real>, p: Policy, now: int)
    requires ValidPolicy(p) && multiset(os) == multiset(qs) && DistinctCandidates(os)
    ensures var d, e := Route(os, s, capital, p, now), Route(qs, s, capital, p, now);
            d.selected == e.selected && d.claim == e.claim && forall x :: x in d.rejected <==> x in e.rejected
  {
    assert forall o :: o in os <==> o in multiset(os);
    assert forall o :: o in qs <==> o in multiset(qs);
    if capital.Some? && !SomeClaimExpired(s, now) {
      SameSelection(os, qs, s, capital.value, p, now);
      var d, e := Route(os, s, capital, p, now), Route(qs, s, capital, p, now);
      forall x ensures x in d.rejected <==> x in e.rejected {
        SameRejections(os, qs, s, capital.value, p, now, x);
      }
    }
  }

  // ---------------------------------------------------------------- the loops of a decision

  /** The first pass: what no claim, expiry or flag excludes. */
  method SortOutConflicts(os: seq<Opportunity>, s: Snapshot, p: Policy, now: int)
    returns (eligible: seq<Opportunity>, rejected: seq<(string, Rejection)>)
    ensures eligible == Eligible(os, s, p, now) && rejected == Conflicts(os, s, p, now)
  {
    rejected, eligible := [], [];
    for i := 0 to |os|
      invariant eligible == Eligible(os[..i], s, p, now) && rejected == Conflicts(os[..i], s, p, now)
    {
      assert os[..i + 1][..i] == os[..i];
      var reason := ConflictReason(os[i], s, p, now);
      if reason.None? {
        eligible := eligible + [os[i]];
      } else {
        rejected := rejected + [(os[i].candidate.candidateId, reason.value)];
      }
    }
    assert os[..|os|] == os;
  }

  /** The second pass: what the unclaimed capital covers. */
  method SortOutUnfunded(eligible: seq<Opportunity>, s: Snapshot, capital: real)
    returns (funded: seq<Opportunity>, rejected: seq<(string, Rejection)>)
    ensures funded == FundedOf(eligible, s, capital) && rejected == Unfunded(eligible, s, capital)
  {
    var remaining := capital - Reserved(s.claims);
    funded, rejected := [], [];
    for i := 0 to |eligible|
      invariant funded == FundedOf(eligible[..i], s, capital) && rejected == Unfunded(eligible[..i], s, capital)
    {
      assert eligible[..i + 1][..i] == eligible[..i];
      if eligible[i].candidate.requiredCapital <= remaining {
        funded := funded + [eligible[i]];
      } else {
        rejected := rejected + [(eligible[i].candidate.candidateId, CapitalAlreadyClaimed)];
      }
    }
    assert eligible[..|eligible|] == eligible;
  }

  /** The running minimum of the ranking. */
  method PickBest(funded: seq<Opportunity>, p: Policy) returns (best: Opportunity)
    requires ValidPolicy(p) && funded != []
    ensures best == Best(funded, p)
  {
    best := funded[0];
    for i := 1 to |funded|
      invariant best == Best(funded[..i], p)
    {
      assert funded[..i + 1][..i] == funded[..i];
      if Preferred(funded[i], best, p) {
        best := funded[i];
      }
    }
    assert funded[..|funded|] == funded;
  }

  /** The decision as it is computed: two filtering passes, then a running minimum. */
  method RouteOpportunities(os: seq<Opportunity>, s: Snapshot, capital: Option<real>, p: Policy, now: int)
    returns (d: Decision)
    requires ValidPolicy(p)
    ensures d == Route(os, s, capital, p, now)
  {
    if capital.None? {
      return Nothing(s, p, CapitalStateUnavailable, []);
    }
    if exists c :: c in s.claims && c.status == Active && c.expiresAt <= now {
      return Nothing(s, p, ClaimReconciliationRequired, []);
    }
    var eligible, rejected := SortOutConflicts(os, s, p, now);
    if eligible == [] {
      return Nothing(s, p, NoEligibleOpportunity, rejected);
    }
    var funded, unfunded := SortOutUnfunded(eligible, s, capital.value);
    rejected := rejected + unfunded;
    if funded == [] {
      return Nothing(s, p, InsufficientUnclaimedCapital, rejected);
    }
    var best := PickBest(funded, p);
    return Decision(Some(best), Some(ClaimFor(best, now)), ClaimProposed, rejected, s.revision, p.version);
  }

  // ---------------------------------------------------------------- reconciling

  datatype ReconcileError = UnknownClaim | ReconciledBeforeCreation

  function Find(claims: seq<Claim>, claimId: string): (r: Option<Claim>)
    ensures r.Some? ==> r.value in claims && r.value.claimId == claimId
    ensures r.None? ==> forall c :: c in claims ==> c.claimId != claimId
  {
    if claims == [] then None
    else if claims[0].claimId == claimId then Some(claims[0])
    else Find(claims[1..], claimId)
  }

  function Close(claims: seq<Claim>, claimId: string, closed: Claim): (r: seq<Claim>)
    ensures |r| == |claims|
    ensures forall i :: 0 <= i < |claims| ==> r[i] == if claims[i].claimId == claimId then closed else claims[i]
  {
    seq(|claims|, i requires 0 <= i < |claims| => if claims[i].claimId == claimId then closed else claims[i])
  }

  function ReconcileClaim(s: Snapshot, claimId: string, at: int): Result<Snapshot, ReconcileError> {
    var found := Find(s.claims, claimId);
    if found.None? then Err(UnknownClaim)
    else if found.value.status == Reconciled then Ok(s)
    else if at < found.value.createdAt then Err(ReconciledBeforeCreation)
    else Ok(Snapshot(s.revision + 1,
                     Close(s.claims, claimId, found.value.(status := Reconciled, reconciledAt := Some(at))),
                     s.unresolved))
  }

  lemma FindIsTheClaim(s: Snapshot, i: nat)
    requires ValidSnapshot(s) && i < |s.claims|
    ensures Find(s.claims, s.claims[i].claimId) == Some(s.claims[i])
  {
    var c := Find(s.claims, s.claims[i].claimId).value;
    var j :| 0 <= j < |s.claims| && s.claims[j] == c;
    assert i == j;
  }

  lemma ReconciledClaims(s: Snapshot, i: nat, at: int)
    requires ValidSnapshot(s) && i < |s.claims| && s.claims[i].status == Active && at >= s.claims[i].createdAt
    ensures var closed := s.claims[i].(status := Reconciled, reconciledAt := Some(at));
            ReconcileClaim(s, s.claims[i].claimId, at)
            == Ok(Snapshot(s.revision + 1, s.claims[i := closed], s.unresolved))
    ensures ValidSnapshot(ReconcileClaim(s, s.claims[i].claimId, at).value)
  {
    FindIsTheClaim(s, i);
    var closed := s.claims[i].(status := Reconciled, reconciledAt := Some(at));
    assert Close(s.claims, s.claims[i].claimId, closed) == s.claims[i := closed];
  }

  /** Repeating a reconciliation, at any time, changes nothing. */
  lemma ReconcileIsIdempotent(s: Snapshot, claimId: string, at: int, again: int)
    requires ValidSnapshot(s) && ReconcileClaim(s, claimId, at).Ok?
    ensures ReconcileClaim(ReconcileClaim(s, claimId, at).value, claimId, again) == ReconcileClaim(s, claimId, at)
  {
    var c := Find(s.claims, claimId).value;
    if c.status == Active {
      var i :| 0 <= i < |s.claims| && s.claims[i] == c;
      ReconciledClaims(s, i, at);
      FindIsTheClaim(ReconcileClaim(s, claimId, at).value, i);
    }
  }

  /** Two active claims can be reconciled in either order. */
  lemma ReconcileCommutes(s: Snapshot, i: nat, j: nat, a: int, b: int)
    requires ValidSnapshot(s) && i < |s.claims| && j < |s.claims| && i != j
    requires s.claims[i].status == Active && a >= s.claims[i].createdAt
    requires s.claims[j].status == Active && b >= s.claims[j].createdAt
    ensures var x, y := s.claims[i].claimId, s.claims[j].claimId;
            var first, second := ReconcileClaim(s, x, a), ReconcileClaim(s, y, b);
            first.Ok? && second.Ok?
            && ReconcileClaim(first.value, y, b).Ok?
            && ReconcileClaim(first.value, y, b) == ReconcileClaim(second.value, x, a)
            && ReconcileClaim(first.value, y, b).value.revision == s.revision + 2
  {
    ReconciledClaims(s, i, a);
    ReconciledClaims(s, j, b);
    var p, q := ReconcileClaim(s, s.claims[i].claimId, a).value, ReconcileClaim(s, s.claims[j].claimId, b).value;
    ReconciledClaims(p, j, b);
    ReconciledClaims(q, i, a);
    var ci := s.claims[i].(status := Reconciled, reconciledAt := Some(a));
    var cj := s.claims[j].(status := Reconciled, reconciledAt := Some(b));
    assert s.claims[i := ci][j := cj] == s.claims[j := cj][i := ci];
  }

  // ---------------------------------------------------------------- runs

  /** The persisted snapshot and every decision any proposer still holds, however stale. */
  datatype World = World(snapshot: Snapshot, held: seq<Decision>)

  datatype Step =
    | Propose(opportunities: seq<Opportunity>, capital: Option<real>, policy: Policy, now: int)
    | Commit(index: nat)
    | Reconcile(claimId: string, at: int)
    | SetUnresolved(conditions: seq<string>)

  /** Compare-and-set: a claim is appended only at the revision it was decided on. */
  function CommitDecision(s: Snapshot, d: Decision): Snapshot {
    if d.claim.None? || d.expectedRevision != s.revision then s
    else
      var t := Snapshot(s.revision + 1, s.claims + [d.claim.value], s.unresolved);
      if ValidSnapshot(t) then t else s
  }

  predicate ValidStep(s: Step, cap: real) {
    match s
    case Propose(os, capital, p, _) =>
      ValidPolicy(p) && (capital.Some? ==> capital.value <= cap) && forall o :: o in os ==> ValidOpportunity(o)
    case SetUnresolved(cs) => NoDuplicates(cs)
    case _ => true
  }

  function Next(w: World, s: Step): World
    requires s.Propose? ==> ValidPolicy(s.policy)
  {
    match s
    case Propose(os, capital, p, now) => w.(held := w.held + [Route(os, w.snapshot, capital, p, now)])
    case Commit(i) => if i < |w.held| then w.(snapshot := CommitDecision(w.snapshot, w.held[i])) else w
    case Reconcile(id, at) =>
      var r := ReconcileClaim(w.snapshot, id, at);
      if r.Ok? then w.(snapshot := r.value) else w
    case SetUnresolved(cs) => w.(snapshot := w.snapshot.(unresolved := cs))
  }

  predicate ValidSteps(steps: seq<Step>, cap: real) {
    forall k :: 0 <= k < |steps| ==> ValidStep(steps[k], cap)
  }

  function Run(w: World, steps: seq<Step>, cap: real): World
    requires ValidSteps(steps, cap)
    decreases |steps|
  {
    if steps == [] then w else Run(Next(w, steps[0]), steps[1..], cap)
  }

  predicate CandidatesDistinct(claims: seq<Claim>) {
    forall i, j :: 0 <= i < j < |claims| ==> claims[i].candidateId != claims[j].candidateId
  }

  predicate Apart(a: Claim, b: Claim) {
    a.conditionId != b.conditionId && !SharesToken(a.tokenIds, b.tokenIds)
  }

  predicate ActivesApart(claims: seq<Claim>) {
    forall i, j :: 0 <= i < j < |claims| && claims[i].status == Active && claims[j].status == Active ==>
      Apart(claims[i], claims[j])
  }

  /** What every reachable snapshot satisfies. */
  predicate Safe(s: Snapshot, cap: real) {
    ValidSnapshot(s) && CandidatesDistinct(s.claims) && ActivesApart(s.claims) && Reserved(s.claims) <= cap
  }

  predicate Admissible(s: Snapshot, c: Claim, cap: real) {
    && (forall i :: 0 <= i < |s.claims| ==> s.claims[i].candidateId != c.candidateId)
    && (forall i :: 0 <= i < |s.claims| && s.claims[i].status == Active ==> Apart(s.claims[i], c))
    && Reserved(s.claims) + c.reserved <= cap
  }

  /** A held decision is from the past, and still sound if nothing has been written since. */
  predicate HeldSound(s: Snapshot, d: Decision, cap: real) {
    d.claim.Some? ==>
      && ValidClaim(d.claim.value) && d.claim.value.status == Active
      && d.expectedRevision <= s.revision
      && (d.expectedRevision == s.revision ==> Admissible(s, d.claim.value, cap))
  }

  predicate Inv(w: World, cap: real) {
    Safe(w.snapshot, cap) && forall k :: 0 <= k < |w.held| ==> HeldSound(w.snapshot, w.held[k], cap)
  }

  lemma ProposalIsSound(os: seq<Opportunity>, s: Snapshot, capital: Option<real>, p: Policy, now: int, cap: real)
    requires ValidPolicy(p) && (capital.Some? ==> capital.value <= cap)
    requires forall o :: o in os ==> ValidOpportunity(o)
    ensures HeldSound(s, Route(os, s, capital, p, now), cap)
  {
    if capital.Some? && !SomeClaimExpired(s, now) {
      SelectedIsMostPreferred(os, s, capital.value, p, now);
      var d := Route(os, s, capital, p, now);
      if d.selected.Some? {
        var o := d.selected.value;
        assert ValidOpportunity(o) && Fundable(o, s, capital.value, p, now);
        forall i | 0 <= i < |s.claims| ensures s.claims[i].candidateId != o.candidate.candidateId {
          assert s.claims[i] in s.claims;
        }
        forall i | 0 <= i < |s.claims| && s.claims[i].status == Active ensures Apart(s.claims[i], ClaimFor(o, now)) {
          assert s.claims[i] in s.claims;
        }
      }
    }
  }

  lemma CommitIsSafe(s: Snapshot, d: Decision, cap: real)
    requires Safe(s, cap) && HeldSound(s, d, cap)
    ensures Safe(CommitDecision(s, d), cap)
  {
    var t := CommitDecision(s, d);
    if t != s {
      var c := d.claim.value;
      assert t.claims == s.claims + [c] && t.claims[..|t.claims| - 1] == s.claims;
    }
  }

  lemma {:induction false} ClosingReleases(claims: seq<Claim>, i: nat, c: Claim)
    requires i < |claims| && claims[i].status == Active && c.status == Reconciled
    ensures Reserved(claims[i := c]) == Reserved(claims) - claims[i].reserved
  {
    var n := |claims| - 1;
    if i == n {
      assert claims[i := c][..n] == claims[..n];
    } else {
      assert claims[i := c][..n] == claims[..n][i := c];
      ClosingReleases(claims[..n], i, c);
    }
  }

  /** Reconciling returns exactly the capital the claim held, and writes one revision, unless it changes nothing. */
  lemma ReconcileReleases(s: Snapshot, claimId: string, at: int)
    requires ValidSnapshot(s) && ReconcileClaim(s, claimId, at).Ok?
    ensures Find(s.claims, claimId).Some?
    ensures var c, t := Find(s.claims, claimId).value, ReconcileClaim(s, claimId, at).value;
            && (c.status == Reconciled ==> t == s)
            && (c.status == Active ==>
                  t.revision == s.revision + 1 && Reserved(t.claims) == Reserved(s.claims) - c.reserved)
  {
    var c := Find(s.claims, claimId).value;
    if c.status == Active {
      var i :| 0 <= i < |s.claims| && s.claims[i] == c;
      ReconciledClaims(s, i, at);
      ClosingReleases(s.claims, i, c.(status := Reconciled, reconciledAt := Some(at)));
    }
  }

  lemma ClosingIsSafe(claims: seq<Claim>, i: nat, closed: Claim)
    requires i < |claims| && closed.status == Reconciled && closed.candidateId == claims[i].candidateId
    requires CandidatesDistinct(claims) && ActivesApart(claims)
    ensures CandidatesDistinct(claims[i := closed]) && ActivesApart(claims[i := closed])
  {
  }

  lemma ReconcileIsSafe(s: Snapshot, claimId: string, at: int, cap: real)
    requires Safe(s, cap) && ReconcileClaim(s, claimId, at).Ok?
    ensures Safe(ReconcileClaim(s, claimId, at).value, cap)
  {
    var c := Find(s.claims, claimId).value;
    if c.status == Active {
      var i :| 0 <= i < |s.claims| && s.claims[i] == c;
      var closed := c.(status := Reconciled, reconciledAt := Some(at));
      ReconciledClaims(s, i, at);
      ClosingReleases(s.claims, i, closed);
      ClosingIsSafe(s.claims, i, closed);
      assert ValidClaim(c);
    }
  }

  /** A write makes every held decision stale, and a stale one cannot be committed. */
  lemma WriteKeepsHeld(s: Snapshot, t: Snapshot, d: Decision, cap: real)
    requires HeldSound(s, d, cap) && (t == s || t.revision == s.revision + 1)
    ensures HeldSound(t, d, cap)
  {
  }

  lemma WriteKeepsInv(w: World, t: Snapshot, cap: real)
    requires Inv(w, cap) && Safe(t, cap) && (t == w.snapshot || t.revision == w.snapshot.revision + 1)
    ensures Inv(w.(snapshot := t), cap)
  {
    forall k | 0 <= k < |w.held| ensures HeldSound(t, w.held[k], cap) {
      WriteKeepsHeld(w.snapshot, t, w.held[k], cap);
    }
  }

  lemma UnresolvedKeepsInv(w: World, cs: seq<string>, cap: real)
    requires Inv(w, cap) && NoDuplicates(cs)
    ensures Inv(w.(snapshot := w.snapshot.(unresolved := cs)), cap)
  {
    var t := w.snapshot.(unresolved := cs);
    forall k | 0 <= k < |w.held| ensures HeldSound(t, w.held[k], cap) {
      assert HeldSound(w.snapshot, w.held[k], cap);
    }
  }

  lemma ProposalKeepsInv(
    w: World, os: seq<Opportunity>, capital: Option<real>, p: Policy, now: int, cap: real)
    requires Inv(w, cap) && ValidPolicy(p) && (capital.Some? ==> capital.value <= cap)
    requires forall o :: o in os ==> ValidOpportunity(o)
    ensures Inv(w.(held := w.held + [Route(os, w.snapshot, capital, p, now)]), cap)
  {
    ProposalIsSound(os, w.snapshot, capital, p, now, cap);
  }

  lemma NextKeepsInv(w: World, s: Step, cap: real)
    requires Inv(w, cap) && ValidStep(s, cap)
    ensures Inv(Next(w, s), cap)
  {
    if s.Propose? {
      ProposalKeepsInv(w, s.opportunities, s.capital, s.policy, s.now, cap);
    } else if s.SetUnresolved? {
      UnresolvedKeepsInv(w, s.conditions, cap);
    } else if s.Commit? {
      if s.index < |w.held| {
        CommitIsSafe(w.snapshot, w.held[s.index], cap);
        WriteKeepsInv(w, CommitDecision(w.snapshot, w.held[s.index]), cap);
      }
    } else if ReconcileClaim(w.snapshot, s.claimId, s.at).Ok? {
      ReconcileIsSafe(w.snapshot, s.claimId, s.at, cap);
      ReconcileReleases(w.snapshot, s.claimId, s.at);
      WriteKeepsInv(w, ReconcileClaim(w.snapshot, s.claimId, s.at).value, cap);
    }
  }

  /**
   * However many proposers hold stale decisions and in whatever order they commit, every reachable
   * snapshot keeps its ids distinct, its active claims apart, and its reserved capital within what
   * every proposer believed available.
   */
  lemma {:induction false} EveryRunIsSafe(w: World, steps: seq<Step>, cap: real)
    requires Inv(w, cap)
    requires ValidSteps(steps, cap)
    ensures Safe(Run(w, steps, cap).snapshot, cap) && Inv(Run(w, steps, cap), cap)
    decreases |steps|
  {
    if steps != [] {
      NextKeepsInv(w, steps[0], cap);
      EveryRunIsSafe(Next(w, steps[0]), steps[1..], cap);
    }
  }

  /** Of all decisions taken on one revision at most one commits: the rest find it has moved on. */
  lemma SecondCommitLoses(s: Snapshot, d: Decision, e: Decision)
    requires CommitDecision(s, d) != s && e.expectedRevision == s.revision
    ensures CommitDecision(CommitDecision(s, d), e) == CommitDecision(s, d)
  {
  }

  /** No claim disappears: only its own reconciliation changes it, and expiry alone never does. */
  lemma ClaimPersistsOneStep(w: World, s: Step, cap: real, i: nat)
    requires Inv(w, cap) && ValidStep(s, cap) && i < |w.snapshot.claims|
    ensures var v := Next(w, s).snapshot;
            i < |v.claims|
            && (v.claims[i] == w.snapshot.claims[i]
                || (s.Reconcile? && s.claimId == w.snapshot.claims[i].claimId && w.snapshot.claims[i].status == Active
                    && v.claims[i] == w.snapshot.claims[i].(status := Reconciled, reconciledAt := Some(s.at))))
  {
    if s.Reconcile? && ReconcileClaim(w.snapshot, s.claimId, s.at).Ok? {
      var c := Find(w.snapshot.claims, s.claimId).value;
      var j :| 0 <= j < |w.snapshot.claims| && w.snapshot.claims[j] == c;
      if c.status == Active {
        ReconciledClaims(w.snapshot, j, s.at);
      }
    }
  }

  predicate NeverReconciled(steps: seq<Step>, claimId: string) {
    forall k :: 0 <= k < |steps| && steps[k].Reconcile? ==> steps[k].claimId != claimId
  }

  /** Over every run without a reconciliation of it, a claim stays as it is. */
  lemma {:induction false} ActiveClaimPersists(w: World, steps: seq<Step>, cap: real, i: nat)
    requires Inv(w, cap) && ValidSteps(steps, cap) && i < |w.snapshot.claims|
    requires NeverReconciled(steps, w.snapshot.claims[i].claimId)
    ensures var v := Run(w, steps, cap).snapshot;
            i < |v.claims| && v.claims[i] == w.snapshot.claims[i]
    decreases |steps|
  {
    if steps != [] {
      ClaimPersistsOneStep(w, steps[0], cap, i);
      NextKeepsInv(w, steps[0], cap);
      ActiveClaimPersists(Next(w, steps[0]), steps[1..], cap, i);
    }
  }

  /** While an active claim is past its expiry no decision proposes anything. */
  lemma ExpiredClaimBlocks(os: seq<Opportunity>, s: Snapshot, capital: Option<real>, p: Policy, now: int, i: nat)
    requires ValidPolicy(p) && i < |s.claims| && s.claims[i].status == Active && s.claims[i].expiresAt <= now
    ensures Route(os, s, capital, p, now).claim.None?
  {
    assert s.claims[i] in s.claims;
  }

  predicate IsPrefixed(s: string) {
    |s| >= 6 && s[..6] == "claim:"
  }

  /** Claim ids and idempotency keys that carry the router's own prefixes carry the candidate they are for. */
  predicate WellNamed(c: Claim) {
    && (c.claimId == "claim:" + c.candidateId || !IsPrefixed(c.claimId))
    && (c.idempotencyKey == "route:" + c.candidateId || !(|c.idempotencyKey| >= 6 && c.idempotencyKey[..6] == "route:"))
  }

  /** The names a proposed claim carries. */
  predicate OwnNames(c: Claim) {
    c.claimId == "claim:" + c.candidateId && c.idempotencyKey == "route:" + c.candidateId
  }

  predicate NamesInv(w: World) {
    && (forall i :: 0 <= i < |w.snapshot.claims| ==> WellNamed(w.snapshot.claims[i]))
    && (forall k :: 0 <= k < |w.held| && w.held[k].claim.Some? ==> OwnNames(w.held[k].claim.value))
  }

  lemma NamesDiffer(c: Claim, d: Claim)
    requires WellNamed(c) && OwnNames(d) && c.candidateId != d.candidateId
    ensures c.claimId != d.claimId && c.idempotencyKey != d.idempotencyKey
  {
    assert d.claimId[..6] == "claim:" && d.idempotencyKey[..6] == "route:";
    assert d.claimId[6..] == d.candidateId && d.idempotencyKey[6..] == d.candidateId;
    assert ("claim:" + c.candidateId)[6..] == c.candidateId;
    assert ("route:" + c.candidateId)[6..] == c.candidateId;
  }

  lemma NextKeepsNames(w: World, s: Step)
    requires NamesInv(w) && (s.Propose? ==> ValidPolicy(s.policy))
    ensures NamesInv(Next(w, s))
  {
    if s.Commit? && s.index < |w.held| && CommitDecision(w.snapshot, w.held[s.index]) != w.snapshot {
      assert OwnNames(w.held[s.index].claim.value);
    } else if s.Reconcile? && ReconcileClaim(w.snapshot, s.claimId, s.at).Ok? {
      ReconcileKeepsNames(w.snapshot, s.claimId, s.at);
    }
  }

  lemma ReconcileKeepsNames(s: Snapshot, claimId: string, at: int)
    requires ReconcileClaim(s, claimId, at).Ok? && forall i :: 0 <= i < |s.claims| ==> WellNamed(s.claims[i])
    ensures var t := ReconcileClaim(s, claimId, at).value;
            forall i :: 0 <= i < |t.claims| ==> WellNamed(t.claims[i])
  {
    var c := Find(s.claims, claimId).value;
    var j :| 0 <= j < |s.claims| && s.claims[j] == c;
    assert WellNamed(s.claims[j]);
  }

  /** A commit at the current revision is never refused while existing ids are well named. */
  lemma CommitSucceeds(s: Snapshot, d: Decision, cap: real)
    requires Safe(s, cap) && HeldSound(s, d, cap) && d.expectedRevision == s.revision
    requires d.claim.Some? && OwnNames(d.claim.value)
    requires forall i :: 0 <= i < |s.claims| ==> WellNamed(s.claims[i])
    ensures CommitDecision(s, d) == Snapshot(s.revision + 1, s.claims + [d.claim.value], s.unresolved)
    ensures Reserved(CommitDecision(s, d).claims) == Reserved(s.claims) + d.claim.value.reserved
  {
    var c := d.claim.value;
    var t := Snapshot(s.revision + 1, s.claims + [c], s.unresolved);
    forall i | 0 <= i < |s.claims|
      ensures s.claims[i].claimId != c.claimId && s.claims[i].idempotencyKey != c.idempotencyKey
    {
      NamesDiffer(s.claims[i], c);
    }
    assert ValidSnapshot(t);
    assert t.claims[..|t.claims| - 1] == s.claims;
  }

  lemma {:induction false} RunKeepsNames(w: World, steps: seq<Step>, cap: real)
    requires NamesInv(w) && ValidSteps(steps, cap)
    ensures NamesInv(Run(w, steps, cap))
    decreases |steps|
  {
    if steps != [] {
      NextKeepsNames(w, steps[0]);
      RunKeepsNames(Next(w, steps[0]), steps[1..], cap);
    }
  }

  /** In every reachable world, a held claim decided on the current revision commits. */
  lemma HeldClaimsCommit(w: World, steps: seq<Step>, cap: real, k: nat)
    requires Inv(w, cap) && NamesInv(w) && ValidSteps(steps, cap)
    ensures var v := Run(w, steps, cap);
            k < |v.held| && v.held[k].claim.Some? && v.held[k].expectedRevision == v.snapshot.revision ==>
              Next(v, Commit(k)).snapshot
              == Snapshot(v.snapshot.revision + 1, v.snapshot.claims + [v.held[k].claim.value], v.snapshot.unresolved)
  {
    var v := Run(w, steps, cap);
    EveryRunIsSafe(w, steps, cap);
    RunKeepsNames(w, steps, cap);
    if k < |v.held| && v.held[k].claim.Some? && v.held[k].expectedRevision == v.snapshot.revision {
      assert HeldSound(v.snapshot, v.held[k], cap);
      CommitSucceeds(v.snapshot, v.held[k], cap);
    }
  }
}
