/**
 * The server's entitlement ledger: the in-memory list of subscription records behind the
 * `/free`, `/activate`, `/user/:userId` and `/use-generation` routes.
 *
 * Random record ids and the clock (`new Date()`) are parameters; a timestamp is an integer
 * number of milliseconds.
 */
module Ledger {
  import opened Wrappers

  /** One record of the subscription list, with the camelCase field names the server writes. */
  datatype SubRecord = SubRecord(
    id: string,
    userId: string,
    planType: string,
    generationsLeft: int,
    totalGenerations: int,
    activatedAt: int,
    status: string,
    isTrial: bool,
    transactionId: Option<string>,
    paymentMethod: Option<string>)

  const FREE_GENERATIONS: nat := 10
  const DEFAULT_GENERATIONS: nat := 50

  /** The error text of a refused `/use-generation` request (answered with status 400). */
  const NO_GENERATIONS_LEFT := "No generations left. Please upgrade your plan."

  /** A record whose counter is consistent: never negative and never above its allowance. */
  predicate WellFormed(r: SubRecord) {
    0 <= r.generationsLeft <= r.totalGenerations
  }

  predicate AllWellFormed(s: seq<SubRecord>) {
    forall r :: r in s ==> WellFormed(r)
  }

  // ---------------------------------------------------------------------------------------
  // Plan allowances

  /** The `planLimits` table of the activation route. */
  function PlanLimit(planType: string): (r: Option<nat>)
    ensures r.Some? <==> planType == "starter" || planType == "pro" || planType == "unlimited"
    ensures r.Some? ==> r.value > 0
  {
    if planType == "starter" then Some(50)
    else if planType == "pro" then Some(200)
    else if planType == "unlimited" then Some(999999)
    else None
  }

  /** `planLimits[planType] || 50`: the table's entry, or 50 for a plan type the table lacks. */
  function Allowance(planType: string): (n: nat)
    ensures n > 0
    ensures planType == "starter" ==> n == 50
    ensures planType == "pro" ==> n == 200
    ensures planType == "unlimited" ==> n == 999999
    ensures PlanLimit(planType).None? ==> n == DEFAULT_GENERATIONS
  {
    match PlanLimit(planType)
    case Some(limit) => if limit != 0 then limit else DEFAULT_GENERATIONS
    case None => DEFAULT_GENERATIONS
  }

  // ---------------------------------------------------------------------------------------
  // New records

  /** The record the `/free` route appends. */
  function FreeRecord(userId: string, id: string, now: int): (r: SubRecord)
    ensures r.userId == userId && r.planType == "free" && r.activatedAt == now
    ensures r.generationsLeft == r.totalGenerations == FREE_GENERATIONS
    ensures r.status == "active" && r.isTrial
    ensures WellFormed(r)
  {
    SubRecord(id, userId, "free", FREE_GENERATIONS, FREE_GENERATIONS, now, "active", true, None, None)
  }

  /** The record the `/activate` route appends. */
  function PaidRecord(userId: string, planType: string, transactionId: Option<string>,
                      paymentMethod: Option<string>, id: string, now: int): (r: SubRecord)
    ensures r.userId == userId && r.planType == planType && r.activatedAt == now
    ensures r.generationsLeft == r.totalGenerations == Allowance(planType)
    ensures r.status == "active" && !r.isTrial
    ensures r.transactionId == transactionId && r.paymentMethod == paymentMethod
    ensures WellFormed(r)
  {
    var n := Allowance(planType);
    SubRecord(id, userId, planType, n, n, now, "active", false, transactionId, paymentMethod)
  }

  // ---------------------------------------------------------------------------------------
  // Sub-lists of the ledger, used to state what a route keeps

  /** Which records a sub-list holds. */
  datatype Selector =
    | OfUser(userId: string)          // every record of the user
    | FreeOf(userId: string)          // the user's free-plan records
    | NonFreeOf(userId: string)       // the user's other records
    | AllButFreeOf(userId: string)    // what the `/free` route's filter keeps

  predicate Selects(sel: Selector, r: SubRecord) {
    match sel
    case OfUser(u) => r.userId == u
    case FreeOf(u) => r.userId == u && r.planType == "free"
    case NonFreeOf(u) => r.userId == u && r.planType != "free"
    case AllButFreeOf(u) => !(r.userId == u && r.planType == "free")
  }

  /** The records of `s` that `sel` selects, in their order in `s`. */
  function Select(s: seq<SubRecord>, sel: Selector): (t: seq<SubRecord>)
    ensures forall r :: r in t <==> r in s && Selects(sel, r)
    ensures |t| <= |s|
  {
    if s == [] then []
    else (if Selects(sel, s[0]) then [s[0]] else []) + Select(s[1..], sel)
  }

  /** The `/free` route's filter: the list without the user's free-plan records. */
  function WithoutFreeOf(s: seq<SubRecord>, userId: string): (t: seq<SubRecord>)
    ensures forall r :: r in t <==> r in s && !(r.userId == userId && r.planType == "free")
  {
    Select(s, AllButFreeOf(userId))
  }

  lemma {:induction false} SelectAppend(a: seq<SubRecord>, b: seq<SubRecord>, sel: Selector)
    ensures Select(a + b, sel) == Select(a, sel) + Select(b, sel)
  {
    if a == [] {
      assert a + b == b;
    } else {
      assert (a + b)[0] == a[0];
      assert (a + b)[1..] == a[1..] + b;
      SelectAppend(a[1..], b, sel);
    }
  }

  /** Filtering first by `outer` loses nothing that `inner` selects, when `inner` implies `outer`. */
  lemma {:induction false} SelectSelect(s: seq<SubRecord>, outer: Selector, inner: Selector)
    requires forall r :: Selects(inner, r) ==> Selects(outer, r)
    ensures Select(Select(s, outer), inner) == Select(s, inner)
  {
    if s != [] {
      SelectSelect(s[1..], outer, inner);
      var head := if Selects(outer, s[0]) then [s[0]] else [];
      SelectAppend(head, Select(s[1..], outer), inner);
    }
  }

  lemma SelectNone(s: seq<SubRecord>, sel: Selector)
    requires forall r :: r in s ==> !Selects(sel, r)
    ensures Select(s, sel) == []
  {
  }

  /**
   * After `/free` the user has exactly one free-plan record, the new one, and the user's
   * other records are the same records in the same order.
   */
  lemma FreeActivationForUser(s: seq<SubRecord>, userId: string, id: string, now: int)
    ensures Select(WithoutFreeOf(s, userId) + [FreeRecord(userId, id, now)], FreeOf(userId))
            == [FreeRecord(userId, id, now)]
    ensures Select(WithoutFreeOf(s, userId) + [FreeRecord(userId, id, now)], NonFreeOf(userId))
            == Select(s, NonFreeOf(userId))
  {
    var rec := FreeRecord(userId, id, now);
    var kept := WithoutFreeOf(s, userId);
    SelectAppend(kept, [rec], FreeOf(userId));
    SelectNone(kept, FreeOf(userId));
    SelectAppend(kept, [rec], NonFreeOf(userId));
    SelectSelect(s, AllButFreeOf(userId), NonFreeOf(userId));
  }

  /** `/free` leaves the records of every other user as they were, in the same order. */
  lemma FreeActivationForOthers(s: seq<SubRecord>, userId: string, other: string, id: string, now: int)
    requires other != userId
    ensures Select(WithoutFreeOf(s, userId) + [FreeRecord(userId, id, now)], OfUser(other))
            == Select(s, OfUser(other))
  {
    var rec := FreeRecord(userId, id, now);
    SelectAppend(WithoutFreeOf(s, userId), [rec], OfUser(other));
    SelectSelect(s, AllButFreeOf(userId), OfUser(other));
  }

  // ---------------------------------------------------------------------------------------
  // The latest record of a user

  /**
   * The index the lookup routes pick: among the user's records, one with the greatest
   * `activatedAt`; on a tie the stable sort keeps list order, so the first such record.
   */
  function LatestIndex(s: seq<SubRecord>, userId: string): (k: Option<nat>)
    ensures k.Some? ==> k.value < |s| && s[k.value].userId == userId
    decreases |s|
  {
    if s == [] then None
    else
      var last := s[|s| - 1];
      var before := LatestIndex(s[..|s| - 1], userId);
      if last.userId != userId then before
      else if before.Some? && last.activatedAt <= s[before.value].activatedAt then before
      else Some(|s| - 1)
  }

  /**
   * The index `LatestIndex` picks is none exactly when the user has no record; otherwise no
   * record of the user is newer, and every record of the user before it is strictly older.
   */
  lemma {:induction false} LatestIndexIsLatest(s: seq<SubRecord>, userId: string)
    ensures LatestIndex(s, userId).None? <==> forall i :: 0 <= i < |s| ==> s[i].userId != userId
    ensures LatestIndex(s, userId).Some? ==>
              forall i :: 0 <= i < |s| && s[i].userId == userId ==>
                s[i].activatedAt <= s[LatestIndex(s, userId).value].activatedAt
    ensures LatestIndex(s, userId).Some? ==>
              forall i :: 0 <= i < LatestIndex(s, userId).value && s[i].userId == userId ==>
                s[i].activatedAt < s[LatestIndex(s, userId).value].activatedAt
    decreases |s|
  {
    if s != [] {
      var init := s[..|s| - 1];
      LatestIndexIsLatest(init, userId);
      assert forall i :: 0 <= i < |init| ==> init[i] == s[i];
    }
  }

  /** The lookup depends only on each position's user and activation time. */
  lemma {:induction false} LatestIndexDependsOnKeys(s: seq<SubRecord>, t: seq<SubRecord>, userId: string)
    requires |s| == |t|
    requires forall i :: 0 <= i < |s| ==> s[i].userId == t[i].userId && s[i].activatedAt == t[i].activatedAt
    ensures LatestIndex(s, userId) == LatestIndex(t, userId)
    decreases |s|
  {
    if s != [] {
      LatestIndexDependsOnKeys(s[..|s| - 1], t[..|t| - 1], userId);
    }
  }

  /**
   * A record appended for a user becomes that user's latest one exactly when it is strictly
   * newer than each of the user's earlier records; an equal timestamp leaves an older record
   * in front.
   */
  lemma LatestAfterAppend(s: seq<SubRecord>, r: SubRecord)
    ensures LatestIndex(s + [r], r.userId) == Some(|s|) <==>
            forall i :: 0 <= i < |s| && s[i].userId == r.userId ==> s[i].activatedAt < r.activatedAt
  {
    var t := s + [r];
    assert t[..|t| - 1] == s;
    LatestIndexIsLatest(s, r.userId);
  }

  // ---------------------------------------------------------------------------------------
  // Using one generation

  /** The answer of `/use-generation`: the new count, or the refusal with its error text. */
  datatype UseOutcome = Used(generationsLeft: int) | NoGenerationsLeft {

    /** The `error` text of the answer: the refusal's message, or none for a success. */
    function Error(): (e: Option<string>)
      ensures e.Some? <==> this.NoGenerationsLeft?
      ensures e.Some? ==> e.value == NO_GENERATIONS_LEFT
    {
      if this.NoGenerationsLeft? then Some(NO_GENERATIONS_LEFT) else None
    }
  }

  /** One request's answer and the subscription list it leaves. */
  datatype Step = Step(answer: UseOutcome, records: seq<SubRecord>)

  /** The answers of several requests, in order, and the list they leave. */
  datatype Run = Run(answers: seq<UseOutcome>, records: seq<SubRecord>)

  /**
   * `/use-generation`: decrement the user's latest record when it has a generation left and
   * answer with the new count; otherwise refuse and change nothing.
   */
  function ConsumeStep(s: seq<SubRecord>, userId: string): (res: Step)
    ensures |res.records| == |s|
    ensures match LatestIndex(s, userId)
            case Some(k) =>
              if s[k].generationsLeft > 0 then
                res.answer == Used(s[k].generationsLeft - 1)
                && res.records[k] == s[k].(generationsLeft := s[k].generationsLeft - 1)
                && forall j :: 0 <= j < |s| && j != k ==> res.records[j] == s[j]
              else res.answer == NoGenerationsLeft && res.records == s
            case None => res.answer == NoGenerationsLeft && res.records == s
  {
    match LatestIndex(s, userId)
    case Some(k) =>
      if s[k].generationsLeft > 0 then
        var updated := s[k].(generationsLeft := s[k].generationsLeft - 1);
        Step(Used(updated.generationsLeft), s[k := updated])
      else Step(NoGenerationsLeft, s)
    case None => Step(NoGenerationsLeft, s)
  }

  /** Using a generation keeps every record consistent: no counter drops below zero. */
  lemma ConsumePreservesWellFormed(s: seq<SubRecord>, userId: string)
    requires AllWellFormed(s)
    ensures AllWellFormed(ConsumeStep(s, userId).records)
  {
    var t := ConsumeStep(s, userId).records;
    forall r | r in t ensures WellFormed(r) {
      var j :| 0 <= j < |t| && t[j] == r;
      assert s[j] in s;
    }
  }

  /** Using a generation does not change which record is the user's latest. */
  lemma ConsumeKeepsLatest(s: seq<SubRecord>, userId: string)
    ensures LatestIndex(ConsumeStep(s, userId).records, userId) == LatestIndex(s, userId)
  {
    LatestIndexDependsOnKeys(s, ConsumeStep(s, userId).records, userId);
  }

  /** `n` successive `/use-generation` requests of one user: the answers and the final list. */
  function UseMany(s: seq<SubRecord>, userId: string, n: nat): (run: Run)
    decreases n
  {
    if n == 0 then Run([], s)
    else
      var step := ConsumeStep(s, userId);
      var rest := UseMany(step.records, userId, n - 1);
      Run([step.answer] + rest.answers, rest.records)
  }

  /** The first of `n > 0` requests is one `ConsumeStep`; the others run on the list it leaves. */
  lemma UseManyFirst(s: seq<SubRecord>, userId: string, n: nat)
    requires n > 0
    ensures UseMany(s, userId, n).answers
            == [ConsumeStep(s, userId).answer] + UseMany(ConsumeStep(s, userId).records, userId, n - 1).answers
    ensures UseMany(s, userId, n).records == UseMany(ConsumeStep(s, userId).records, userId, n - 1).records
  {
  }

  /** One request against a latest record with `g >= 0` left: the answer and the new counter. */
  lemma ConsumeAtLatest(s: seq<SubRecord>, userId: string, k: nat)
    requires LatestIndex(s, userId) == Some(k) && s[k].generationsLeft >= 0
    ensures |ConsumeStep(s, userId).records| == |s|
    ensures LatestIndex(ConsumeStep(s, userId).records, userId) == Some(k)
    ensures ConsumeStep(s, userId).records[k].generationsLeft ==
            if s[k].generationsLeft > 0 then s[k].generationsLeft - 1 else 0
    ensures ConsumeStep(s, userId).answer ==
            if s[k].generationsLeft > 0 then Used(s[k].generationsLeft - 1) else NoGenerationsLeft
  {
    ConsumeKeepsLatest(s, userId);
  }

  /** After `n` requests there are `n` answers, and the list keeps its length and the user's latest record. */
  lemma {:induction false} UseManyShape(s: seq<SubRecord>, userId: string, k: nat, n: nat)
    requires LatestIndex(s, userId) == Some(k)
    ensures |UseMany(s, userId, n).answers| == n
    ensures |UseMany(s, userId, n).records| == |s|
    ensures LatestIndex(UseMany(s, userId, n).records, userId) == Some(k)
    decreases n
  {
    if n > 0 {
      var step := ConsumeStep(s, userId);
      ConsumeKeepsLatest(s, userId);
      UseManyShape(step.records, userId, k, n - 1);
      UseManyFirst(s, userId, n);
    }
  }

  /** After `n` requests the user's latest record is the same one, its counter down by `n` but not below zero. */
  lemma {:induction false} UseManyCounter(s: seq<SubRecord>, userId: string, k: nat, n: nat)
    requires LatestIndex(s, userId) == Some(k) && s[k].generationsLeft >= 0
    ensures |UseMany(s, userId, n).answers| == n
    ensures |UseMany(s, userId, n).records| == |s|
    ensures LatestIndex(UseMany(s, userId, n).records, userId) == Some(k)
    ensures UseMany(s, userId, n).records[k].generationsLeft ==
            if n <= s[k].generationsLeft then s[k].generationsLeft - n else 0
    decreases n
  {
    UseManyShape(s, userId, k, n);
    if n > 0 {
      var step := ConsumeStep(s, userId);
      ConsumeAtLatest(s, userId, k);
      UseManyCounter(step.records, userId, k, n - 1);
      UseManyFirst(s, userId, n);
      var g, g1 := s[k].generationsLeft, step.records[k].generationsLeft;
      var r := UseMany(step.records, userId, n - 1).records[k].generationsLeft;
      assert g1 == if g > 0 then g - 1 else 0;
      assert r == if n - 1 <= g1 then g1 - (n - 1) else 0;
      CounterAfterFirst(g, g1, n, r);
    }
  }

  /** A counter at `g` that one request takes to `g1` and `n - 1` more take to `r` has been taken to `g - n`, floored at 0. */
  lemma CounterAfterFirst(g: int, g1: int, n: nat, r: int)
    requires g >= 0 && n > 0
    requires g1 == if g > 0 then g - 1 else 0
    requires r == if n - 1 <= g1 then g1 - (n - 1) else 0
    ensures r == if n <= g then g - n else 0
  {
  }

  /** The answer list of a counter at `g`, given that its tail is the answer list of the counter one request later. */
  lemma AnswersAfterFirst(answers: seq<UseOutcome>, rest: seq<UseOutcome>, g: int, g1: int)
    requires g >= 0 && |answers| == |rest| + 1 && answers[1..] == rest
    requires g1 == if g > 0 then g - 1 else 0
    requires answers[0] == if g > 0 then Used(g - 1) else NoGenerationsLeft
    requires forall i :: 0 <= i < |rest| ==> rest[i] == if i < g1 then Used(g1 - 1 - i) else NoGenerationsLeft
    ensures forall i :: 0 <= i < |answers| ==>
              answers[i] == if i < g then Used(g - 1 - i) else NoGenerationsLeft
  {
    forall i | 0 < i < |answers|
      ensures answers[i] == if i < g then Used(g - 1 - i) else NoGenerationsLeft
    {
      assert answers[i] == rest[i - 1];
    }
  }

  /**
   * A latest record with `g` generations left answers `g` requests with `g - 1`, ..., `0`,
   * and refuses every request after that.
   */
  lemma {:induction false} UseManyAnswers(s: seq<SubRecord>, userId: string, k: nat, n: nat)
    requires LatestIndex(s, userId) == Some(k) && s[k].generationsLeft >= 0
    ensures |UseMany(s, userId, n).answers| == n
    ensures forall i :: 0 <= i < n ==>
              UseMany(s, userId, n).answers[i] ==
              if i < s[k].generationsLeft then Used(s[k].generationsLeft - 1 - i) else NoGenerationsLeft
    decreases n
  {
    UseManyShape(s, userId, k, n);
    if n > 0 {
      var step := ConsumeStep(s, userId);
      ConsumeAtLatest(s, userId, k);
      UseManyAnswers(step.records, userId, k, n - 1);
      var rest := UseMany(step.records, userId, n - 1).answers;
      UseManyFirst(s, userId, n);
      AnswersAfterFirst(UseMany(s, userId, n).answers, rest, s[k].generationsLeft, step.records[k].generationsLeft);
    }
  }

  /**
   * Two requests racing for the last generation: the first is answered with 0 left, the
   * second is refused, and the counter ends at 0, never -1.
   */
  lemma LastGenerationUsedOnce(s: seq<SubRecord>, userId: string, k: nat)
    requires LatestIndex(s, userId) == Some(k) && s[k].generationsLeft == 1
    ensures UseMany(s, userId, 2).answers == [Used(0), NoGenerationsLeft]
    ensures UseMany(s, userId, 2).records[k].generationsLeft == 0
  {
    UseManyCounter(s, userId, k, 2);
    UseManyAnswers(s, userId, k, 2);
  }

  /**
   * A paid activation newer than the user's earlier records becomes the user's latest
   * record with the full allowance of the new plan, whatever the older records still hold.
   */
  lemma PaidActivationResets(s: seq<SubRecord>, userId: string, planType: string,
                             transactionId: Option<string>, paymentMethod: Option<string>,
                             id: string, now: int)
    requires forall i :: 0 <= i < |s| && s[i].userId == userId ==> s[i].activatedAt < now
    ensures var t := s + [PaidRecord(userId, planType, transactionId, paymentMethod, id, now)];
            LatestIndex(t, userId) == Some(|s|) && t[|s|].generationsLeft == Allowance(planType)
  {
    LatestAfterAppend(s, PaidRecord(userId, planType, transactionId, paymentMethod, id, now));
  }

  /**
   * A user without records who activates the free plan can generate exactly ten times;
   * the eleventh request is refused and the counter stays at zero.
   */
  lemma FreePlanAllowsTen(s: seq<SubRecord>, userId: string, id: string, now: int)
    requires forall i :: 0 <= i < |s| ==> s[i].userId != userId
    ensures var run := UseMany(WithoutFreeOf(s, userId) + [FreeRecord(userId, id, now)], userId, 11);
            (forall i :: 0 <= i < 10 ==> run.answers[i].Used?) && run.answers[10] == NoGenerationsLeft
            && run.records[|run.records| - 1].generationsLeft == 0
  {
    var kept := WithoutFreeOf(s, userId);
    var s0 := kept + [FreeRecord(userId, id, now)];
    forall i | 0 <= i < |kept| ensures kept[i].userId != userId {
      assert kept[i] in kept;
      var j :| 0 <= j < |s| && s[j] == kept[i];
    }
    LatestAfterAppend(kept, FreeRecord(userId, id, now));
    UseManyCounter(s0, userId, |kept|, 11);
    UseManyAnswers(s0, userId, |kept|, 11);
  }

  // ---------------------------------------------------------------------------------------
  // The store

  /** `demoData.subscriptions`, updated in place by the four routes. */
  class SubscriptionStore {
    var subscriptions: seq<SubRecord>

    ghost predicate Valid()
      reads this
    {
      AllWellFormed(subscriptions)
    }

    constructor ()
      ensures Valid() && subscriptions == []
    {
      subscriptions := [];
    }

    /** `POST /free`: drop the user's free records, then append a fresh free record. */
    method ActivateFree(userId: string, id: string, now: int) returns (sub: SubRecord)
      requires Valid()
      modifies this
      ensures Valid()
      ensures sub == FreeRecord(userId, id, now)
      ensures subscriptions == WithoutFreeOf(old(subscriptions), userId) + [sub]
    {
      subscriptions := WithoutFreeOf(subscriptions, userId);
      sub := FreeRecord(userId, id, now);
      subscriptions := subscriptions + [sub];
    }

    /** `POST /activate`: append a paid record; every existing record stays as it was. */
    method Activate(userId: string, planType: string, transactionId: Option<string>,
                    paymentMethod: Option<string>, id: string, now: int) returns (sub: SubRecord)
      requires Valid()
      modifies this
      ensures Valid()
      ensures sub == PaidRecord(userId, planType, transactionId, paymentMethod, id, now)
      ensures subscriptions == old(subscriptions) + [sub]
    {
      sub := PaidRecord(userId, planType, transactionId, paymentMethod, id, now);
      subscriptions := subscriptions + [sub];
    }

    /** `GET /user/:userId`: the user's latest record, or none (the route answers `null`). */
    function Lookup(userId: string): (r: Option<SubRecord>)
      reads this
      ensures r.None? <==> forall x :: x in subscriptions ==> x.userId != userId
      ensures r.Some? ==> r.value in subscriptions && r.value.userId == userId
      ensures r.Some? ==> forall x :: x in subscriptions && x.userId == userId ==>
                            x.activatedAt <= r.value.activatedAt
      ensures r.Some? ==> LatestIndex(subscriptions, userId).Some?
                          && r.value == subscriptions[LatestIndex(subscriptions, userId).value]
    {
      LatestIndexIsLatest(subscriptions, userId);
      match LatestIndex(subscriptions, userId)
      case Some(k) => Some(subscriptions[k])
      case None => None
    }

    /** `POST /use-generation`: a guarded decrement of the user's latest record. */
    method UseGeneration(userId: string) returns (outcome: UseOutcome)
      requires Valid()
      modifies this
      ensures Valid()
      ensures Step(outcome, subscriptions) == ConsumeStep(old(subscriptions), userId)
    {
      ConsumePreservesWellFormed(subscriptions, userId);
      var latest := LatestIndex(subscriptions, userId);
      if latest.Some? && subscriptions[latest.value].generationsLeft > 0 {
        var k := latest.value;
        var updated := subscriptions[k].(generationsLeft := subscriptions[k].generationsLeft - 1);
        subscriptions := subscriptions[k := updated];
        outcome := Used(updated.generationsLeft);
      } else {
        outcome := NoGenerationsLeft;
      }
    }
  }
}
