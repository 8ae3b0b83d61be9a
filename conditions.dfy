/**
 * The token filter `TokenAnalyzer.check_conditions` (bot.py:34-69) with its
 * helper `check_socials` (bot.py:97-98): ten threshold and presence checks
 * over a token record decoded from JSON, evaluated with Python's semantics,
 * with every exception caught and turned into a rejection.
 */
module Conditions {
  import opened PyValues
  import opened TopHolders

  const MaxSupply: real := 1000000000.0
  const MinMarketCap: real := 50000.0
  const MinLiquidityUsd: real := 20000.0
  const MinLockedOrBurned: real := 99.0
  const MinMakers: real := 50.0
  const MinHolders: real := 20.0
  const MinVolume24h: real := 10000.0

  // ---------------------------------------------------------------------------
  // The rules, stated on their own

  /**
   * The lock/burn rule on the percentages that are present: with both, their
   * sum must reach 99; with one, that one must; with neither, it holds.
   */
  predicate LockRule(locked: Option<real>, burned: Option<real>) {
    match (locked, burned)
    case (Some(l), Some(b)) => l + b >= MinLockedOrBurned
    case (Some(l), None) => l >= MinLockedOrBurned
    case (None, Some(b)) => b >= MinLockedOrBurned
    case (None, None) => true
  }

  /** A JSON null stands for "absent"; any other value must be a number. */
  predicate NullOrNumber(j: Json) {
    j.JNull? || NumOf(j).Some?
  }

  function PresentNumber(j: Json): Option<real>
    requires NullOrNumber(j)
  {
    if j.JNull? then None else NumOf(j)
  }

  predicate NumberAtLeast(j: Json, bound: real) {
    NumOf(j).Some? && NumOf(j).value >= bound
  }

  /** The value of numeric field `key`, with Python's default 0 when it is absent. */
  function Count(m: map<string, Json>, key: string): Json {
    FieldOr(m, key, JNum(0.0))
  }

  /** 1. The supply is a number of at most 10^9; an absent supply counts as infinite. */
  predicate SupplyOk(m: map<string, Json>) {
    "totalSupply" in m && NumOf(m["totalSupply"]).Some? && NumOf(m["totalSupply"]).value <= MaxSupply
  }

  /** 2. The market capitalisation reaches 50,000. */
  predicate MarketCapOk(m: map<string, Json>) {
    NumberAtLeast(Count(m, "marketCap"), MinMarketCap)
  }

  /** 3. `liquidity` is an object (or absent) whose `usd` reaches 20,000. */
  predicate LiquidityOk(m: map<string, Json>) {
    var liquidity := FieldOr(m, "liquidity", JObj(map[]));
    liquidity.JObj? && NumberAtLeast(Count(liquidity.fields, "usd"), MinLiquidityUsd)
  }

  /** 4. The lock/burn percentages are numbers or absent, and obey `LockRule`. */
  predicate LockOk(m: map<string, Json>) {
    var locked := FieldOr(m, "lockedLiquidityPercentage", JNull);
    var burned := FieldOr(m, "burnedLiquidityPercentage", JNull);
    NullOrNumber(locked) && NullOrNumber(burned) && LockRule(PresentNumber(locked), PresentNumber(burned))
  }

  /** 5. The ten largest holders together hold at most 40%. */
  predicate HoldersOk(m: map<string, Json>) {
    CheckTopHolders(FieldOr(m, "holders", JArr([])))
  }

  /** 6. At least 50 makers. */
  predicate MakersOk(m: map<string, Json>) {
    NumberAtLeast(Count(m, "makersCount"), MinMakers)
  }

  /** 7. At least 20 holders. */
  predicate HoldersCountOk(m: map<string, Json>) {
    NumberAtLeast(Count(m, "holdersCount"), MinHolders)
  }

  /** 8. A 24-hour volume of at least 10,000. */
  predicate VolumeOk(m: map<string, Json>) {
    NumberAtLeast(Count(m, "volume24h"), MinVolume24h)
  }

  /** 9. A pair creation time is present and not null. */
  predicate PairCreatedOk(m: map<string, Json>) {
    "pairCreatedAt" in m && m["pairCreatedAt"] != JNull
  }

  /** 10. `socials` is an object with a truthy `twitter` and a truthy `website`. */
  predicate SocialsOk(m: map<string, Json>) {
    "socials" in m && m["socials"].JObj? &&
    "twitter" in m["socials"].fields && Truthy(m["socials"].fields["twitter"]) &&
    "website" in m["socials"].fields && Truthy(m["socials"].fields["website"])
  }

  /** All ten conditions at once. */
  predicate AllTen(m: map<string, Json>) {
    && SupplyOk(m)
    && MarketCapOk(m)
    && LiquidityOk(m)
    && LockOk(m)
    && HoldersOk(m)
    && MakersOk(m)
    && HoldersCountOk(m)
    && VolumeOk(m)
    && PairCreatedOk(m)
    && SocialsOk(m)
  }

  // ---------------------------------------------------------------------------
  // The code, with Python's semantics

  /**
   * The lock/burn computation of bot.py:44-50: `liquidity_check` starts True
   * and is replaced according to which of `locked` and `burned` is not None.
   */
  function LiquidityLockCheck(locked: Json, burned: Json): (r: Result<bool>)
    ensures r.Ok? <==> NullOrNumber(locked) && NullOrNumber(burned)
    ensures r.Ok? ==> (r.value <==> LockRule(PresentNumber(locked), PresentNumber(burned)))
  {
    if locked != JNull && burned != JNull then
      var total :- Add(locked, burned);
      AtLeast(total, MinLockedOrBurned)
    else if locked != JNull then AtLeast(locked, MinLockedOrBurned)
    else if burned != JNull then AtLeast(burned, MinLockedOrBurned)
    else Ok(true)
  }

  /**
   * `check_socials(socials)`: `socials.get` raises AttributeError unless it
   * is a dict; `bool(...)` of a missing link is `bool(None)`, which is False.
   */
  function CheckSocials(socials: Json): (r: Result<bool>)
    ensures r.Ok? <==> socials.JObj?
    ensures r == Ok(true) <==>
      socials.JObj? &&
      "twitter" in socials.fields && Truthy(socials.fields["twitter"]) &&
      "website" in socials.fields && Truthy(socials.fields["website"])
    ensures socials.JObj? && "twitter" in socials.fields && "website" in socials.fields &&
            socials.fields["twitter"].JStr? && socials.fields["website"].JStr? ==>
              (r == Ok(true) <==> socials.fields["twitter"].s != "" && socials.fields["website"].s != "")
  {
    if socials.JObj? then
      Ok(Truthy(FieldOr(socials.fields, "twitter", JNull)) && Truthy(FieldOr(socials.fields, "website", JNull)))
    else Err(AttributeError)
  }

  /**
   * Looking up a helper through `self`. With `methodsBound` false the helper
   * is not an attribute of the object and the lookup raises AttributeError.
   */
  function CallTopHolders(methodsBound: bool, m: map<string, Json>): Result<bool> {
    if methodsBound then Ok(CheckTopHolders(FieldOr(m, "holders", JArr([]))))
    else Err(AttributeError)
  }

  function CallSocials(methodsBound: bool, m: map<string, Json>): Result<bool> {
    if methodsBound then CheckSocials(FieldOr(m, "socials", JObj(map[])))
    else Err(AttributeError)
  }

  /**
   * The body of the `try` block of `check_conditions` (bot.py:37-65): the
   * extractions, the lock/burn computation, then the ten list entries left to
   * right, then `all(...)`; the first exception stops the evaluation. Only a
   * dict has `get`, so the first `token.get` raises for any other token; once
   * it succeeded the later `token.get` calls cannot raise.
   */
  function Evaluate(token: Json, methodsBound: bool): Result<bool> {
    if !token.JObj? then Err(AttributeError)
    else
      var m := token.fields;
      var marketCap := FieldOr(m, "marketCap", JNum(0.0));
      var liquidity :- Get(FieldOr(m, "liquidity", JObj(map[])), "usd", JNum(0.0));
      var locked := FieldOr(m, "lockedLiquidityPercentage", JNull);
      var burned := FieldOr(m, "burnedLiquidityPercentage", JNull);
      var liquidityCheck :- LiquidityLockCheck(locked, burned);
      // an absent supply is float('inf'), and float('inf') <= 1e9 is False
      var c1 :- if "totalSupply" in m then AtMost(m["totalSupply"], MaxSupply) else Ok(false);
      var c2 :- AtLeast(marketCap, MinMarketCap);
      var c3 :- AtLeast(liquidity, MinLiquidityUsd);
      var c5 :- CallTopHolders(methodsBound, m);
      var c6 :- AtLeast(FieldOr(m, "makersCount", JNum(0.0)), MinMakers);
      var c7 :- AtLeast(FieldOr(m, "holdersCount", JNum(0.0)), MinHolders);
      var c8 :- AtLeast(FieldOr(m, "volume24h", JNum(0.0)), MinVolume24h);
      var c9 := FieldOr(m, "pairCreatedAt", JNull) != JNull;
      var c10 :- CallSocials(methodsBound, m);
      Ok(c1 && c2 && c3 && liquidityCheck && c5 && c6 && c7 && c8 && c9 && c10)
  }

  /**
   * `check_conditions(token)` with the helpers bound as methods: accepts
   * exactly the tokens that are objects meeting all ten conditions. Every
   * exception is caught and rejects (bot.py:67-69).
   */
  function CheckConditions(token: Json): (ok: bool)
    ensures ok <==> token.JObj? && AllTen(token.fields)
  {
    var outcome := Evaluate(token, true);
    assert token.JObj? ==> (outcome == Ok(true) <==> AllTen(token.fields)) by {
      if token.JObj? {
        EvaluateMeansAllTen(token.fields);
      }
    }
    match outcome
    case Ok(b) => b
    case Err(_) => false
  }

  /**
   * `check_conditions` as bot.py has it: `def run_check` at column 0 on
   * line 71 closes the class, so `check_top_holders` and `check_socials` are
   * local functions of that module-level `run_check`, not methods. The lookup
   * `self.check_top_holders` raises AttributeError, the handler catches it,
   * and every token is rejected.
   */
  function CheckConditionsAsWritten(token: Json): (ok: bool)
    ensures !ok
  {
    match Evaluate(token, false)
    case Ok(b) => b
    case Err(_) => false
  }

  /**
   * Evaluation yields True exactly when all ten conditions hold: each step
   * that can raise raises only when its own condition fails on an ill-typed
   * value.
   */
  lemma EvaluateMeansAllTen(m: map<string, Json>)
    ensures Evaluate(JObj(m), true) == Ok(true) <==> AllTen(m)
  {
    if Evaluate(JObj(m), true) == Ok(true) {
      EvaluateSound(m);
    }
    if AllTen(m) {
      EvaluateComplete(m);
    }
  }

  /** An evaluation that yields True has met every condition. */
  lemma EvaluateSound(m: map<string, Json>)
    requires Evaluate(JObj(m), true) == Ok(true)
    ensures AllTen(m)
  {
    var liquidity := Get(FieldOr(m, "liquidity", JObj(map[])), "usd", JNum(0.0));
    var lock := LiquidityLockCheck(FieldOr(m, "lockedLiquidityPercentage", JNull),
                                   FieldOr(m, "burnedLiquidityPercentage", JNull));
    assert liquidity.Ok? && lock.Ok? && lock.value;
    assert SupplyOk(m);
    assert LiquidityOk(m);
    assert SocialsOk(m);
  }

  /** A token meeting every condition evaluates to True without raising. */
  lemma EvaluateComplete(m: map<string, Json>)
    requires AllTen(m)
    ensures Evaluate(JObj(m), true) == Ok(true)
  {
    var liquidity := Get(FieldOr(m, "liquidity", JObj(map[])), "usd", JNum(0.0));
    assert liquidity.Ok? && NumberAtLeast(liquidity.value, MinLiquidityUsd);
    assert CallSocials(true, m) == Ok(true);
  }

  // ---------------------------------------------------------------------------
  // Consequences

  /** Fail closed: when evaluation raises, the token is rejected and some condition fails. */
  lemma FailsClosed(token: Json)
    requires Evaluate(token, true).Err?
    ensures !CheckConditions(token)
    ensures !(token.JObj? && AllTen(token.fields))
  {
  }

  /** A token that is not a JSON object is rejected. */
  lemma NonObjectRejected(token: Json)
    requires !token.JObj?
    ensures !CheckConditions(token)
    ensures Evaluate(token, true) == Err(AttributeError)
  {
  }

  /** A token without `totalSupply` is rejected: the default is infinite. */
  lemma MissingSupplyRejected(m: map<string, Json>)
    requires "totalSupply" !in m
    ensures !CheckConditions(JObj(m))
  {
  }

  /** A missing numeric field defaults to 0, which is below every threshold. */
  lemma MissingCountRejected(m: map<string, Json>, key: string)
    requires key in {"marketCap", "makersCount", "holdersCount", "volume24h"}
    requires key !in m
    ensures !CheckConditions(JObj(m))
  {
  }

  /** Missing liquidity, or liquidity without `usd`, defaults to 0 and is rejected. */
  lemma MissingLiquidityRejected(m: map<string, Json>)
    requires "liquidity" !in m || (m["liquidity"].JObj? && "usd" !in m["liquidity"].fields)
    ensures !CheckConditions(JObj(m))
  {
  }

  /** An absent or null `pairCreatedAt` is rejected. */
  lemma MissingPairCreatedRejected(m: map<string, Json>)
    requires "pairCreatedAt" !in m || m["pairCreatedAt"] == JNull
    ensures !CheckConditions(JObj(m))
  {
  }

  /** A holder that cannot be read makes the whole token fail. */
  lemma MalformedHoldersRejected(m: map<string, Json>, k: nat)
    requires "holders" in m && m["holders"].JArr? && k < |m["holders"].items|
    requires var h := m["holders"].items[k];
      Lookup(h, "percentage").Err? || NumOf(Lookup(h, "percentage").value).None?
    ensures !CheckConditions(JObj(m))
  {
    MalformedHolderRejected(m["holders"].items, k);
  }

  /**
   * A qualifying token is safe for `format_alert` (bot.py:100-113): the
   * three amounts it formats with `:,.0f` are numbers and `socials` is a dict,
   * so formatting the alert cannot raise.
   */
  lemma QualifyingIsFormattable(m: map<string, Json>)
    requires CheckConditions(JObj(m))
    ensures "marketCap" in m && m["marketCap"].JNum?
    ensures "volume24h" in m && m["volume24h"].JNum?
    ensures "liquidity" in m && m["liquidity"].JObj?
    ensures "usd" in m["liquidity"].fields && m["liquidity"].fields["usd"].JNum?
    ensures "socials" in m && m["socials"].JObj?
  {
  }

  /** A token that meets every threshold, with the given holders value. */
  function SampleToken(holders: Json): (t: Json)
    ensures t.JObj? && "holders" in t.fields && t.fields["holders"] == holders
  {
    JObj(map[
      "address" := JStr("sample"),
      "totalSupply" := JNum(1000000.0),
      "marketCap" := JNum(100000.0),
      "liquidity" := JObj(map["usd" := JNum(25000.0)]),
      "lockedLiquidityPercentage" := JNum(99.0),
      "holders" := holders,
      "makersCount" := JNum(60.0),
      "holdersCount" := JNum(30.0),
      "volume24h" := JNum(20000.0),
      "pairCreatedAt" := JNum(1700000000.0),
      "socials" := JObj(map["twitter" := JStr("t"), "website" := JStr("w")])
    ])
  }

  /** Apart from the holders, the sample token meets every condition. */
  lemma SampleMeetsOtherConditions(holders: Json)
    ensures var m := SampleToken(holders).fields;
      SupplyOk(m) && MarketCapOk(m) && LiquidityOk(m) && LockOk(m) && MakersOk(m) &&
      HoldersCountOk(m) && VolumeOk(m) && PairCreatedOk(m) && SocialsOk(m)
  {
  }

  /** Five holders at 5% sum to 25: with every other threshold met, the token passes. */
  lemma SampleTokenAccepted()
    ensures CheckConditions(SampleToken(Holders(Repeat(5.0, 5))))
  {
    UniformHolders(5.0, 5);
    SampleMeetsOtherConditions(Holders(Repeat(5.0, 5)));
  }

  /**
   * Five holders at 10% sum to 50, above 40: the token is rejected although
   * it meets every other threshold.
   */
  lemma SampleTokenWithHeavyHoldersRejected()
    ensures !CheckConditions(SampleToken(Holders(Repeat(10.0, 5))))
  {
    UniformHolders(10.0, 5);
    assert !HoldersOk(SampleToken(Holders(Repeat(10.0, 5))).fields);
  }

  /**
   * The as-written evaluator rejects a token the intended one accepts, so
   * the misplaced `def run_check` changes the filter's outcome.
   */
  lemma AsWrittenRejectsQualifyingToken()
    ensures var t := SampleToken(Holders(Repeat(5.0, 5)));
      CheckConditions(t) && !CheckConditionsAsWritten(t)
  {
    SampleTokenAccepted();
  }
}
