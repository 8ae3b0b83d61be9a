/**
 * One poll cycle, `TokenAnalyzer.run_check` (bot.py:115-127): for each
 * fetched token whose address is not yet in `already_alerted` and that passes
 * `check_conditions`, send an alert and then add the address to the set. The
 * whole loop sits in one `try`, so the first exception (a token without a
 * usable address, a send that fails) ends the cycle.
 *
 * The fetched batch is a parameter, and the outcome of each send is an
 * oracle: `delivered[i]` says whether sending an alert for `batch[i]` would
 * succeed.
 */
module AlertCycle {
  import opened PyValues
  import opened Conditions

  /**
   * `token['address']` followed by the hash the membership test needs: a
   * token that is not a dict, has no `address`, or whose address is a list or
   * a dict raises.
   */
  function Address(token: Json): (r: Result<Key>)
    ensures r.Ok? <==>
      token.JObj? && "address" in token.fields &&
      !token.fields["address"].JArr? && !token.fields["address"].JObj?
    ensures token.JObj? && "address" in token.fields && token.fields["address"].JStr? ==>
      r == Ok(KStr(token.fields["address"].s))
  {
    var address :- Lookup(token, "address");
    HashKey(address)
  }

  /** How a cycle ended: it went through the batch, or an exception stopped it at a token. */
  datatype Stop = Completed | AddressFailed(at: nat) | SendFailed(at: nat)

  /** The state of a cycle: the alerted set, the indices alerted so far, how it ended. */
  datatype Cycle = Cycle(alerted: set<Key>, sent: seq<nat>, stop: Stop)

  /**
   * The body of the loop for token `i`, from a cycle that has not stopped;
   * `accepts` is `check_conditions`.
   */
  function Step(accepts: Json -> bool, c: Cycle, token: Json, delivered: bool, i: nat): Cycle {
    match Address(token)
    case Err(_) => c.(stop := AddressFailed(i))
    case Ok(key) =>
      if key in c.alerted || !accepts(token) then c
      else if !delivered then c.(stop := SendFailed(i))
      else c.(alerted := c.alerted + {key}, sent := c.sent + [i])
  }

  /** The cycle over `batch` from the alerted set `alerted`. */
  function Run(accepts: Json -> bool, alerted: set<Key>, batch: seq<Json>, delivered: seq<bool>): (c: Cycle)
    requires |batch| == |delivered|
    ensures forall k :: 0 <= k < |c.sent| ==> c.sent[k] < |batch|
    ensures c.stop.AddressFailed? ==> c.stop.at < |batch|
    ensures c.stop.SendFailed? ==> c.stop.at < |batch|
    decreases |batch|
  {
    if batch == [] then Cycle(alerted, [], Completed)
    else
      var n := |batch| - 1;
      var c := Run(accepts, alerted, batch[..n], delivered[..n]);
      if c.stop != Completed then c else Step(accepts, c, batch[n], delivered[n], n)
  }

  /** `Run` on one more token of the batch takes one more `Step`, unless the cycle has stopped. */
  lemma RunExtend(accepts: Json -> bool, alerted: set<Key>, batch: seq<Json>, delivered: seq<bool>, i: nat)
    requires |batch| == |delivered| && i < |batch|
    ensures var c := Run(accepts, alerted, batch[..i], delivered[..i]);
      Run(accepts, alerted, batch[..i + 1], delivered[..i + 1]) ==
        if c.stop != Completed then c else Step(accepts, c, batch[i], delivered[i], i)
  {
    assert batch[..i + 1][..i] == batch[..i];
    assert delivered[..i + 1][..i] == delivered[..i];
  }

  /** True when the address of `token` is `key`. */
  predicate HasAddress(token: Json, key: Key) {
    Address(token) == Ok(key)
  }

  // ---------------------------------------------------------------------------
  // What one cycle does

  /** The alerted set only grows. */
  lemma {:induction false} RunGrows(accepts: Json -> bool, alerted: set<Key>, batch: seq<Json>, delivered: seq<bool>)
    requires |batch| == |delivered|
    ensures alerted <= Run(accepts, alerted, batch, delivered).alerted
  {
    if batch != [] {
      var n := |batch| - 1;
      RunGrows(accepts, alerted, batch[..n], delivered[..n]);
    }
  }

  /**
   * Every alert of a cycle is for a token of the batch whose address was not
   * alerted before the cycle, that passes the filter and whose send succeeded.
   */
  lemma {:induction false} RunSentQualify(accepts: Json -> bool, alerted: set<Key>, batch: seq<Json>, delivered: seq<bool>)
    requires |batch| == |delivered|
    ensures var sent := Run(accepts, alerted, batch, delivered).sent;
      forall k :: 0 <= k < |sent| ==>
        && Address(batch[sent[k]]).Ok?
        && Address(batch[sent[k]]).value !in alerted
        && accepts(batch[sent[k]])
        && delivered[sent[k]]
  {
    if batch != [] {
      var n := |batch| - 1;
      var c := Run(accepts, alerted, batch[..n], delivered[..n]);
      var c' := Run(accepts, alerted, batch, delivered);
      RunSentQualify(accepts, alerted, batch[..n], delivered[..n]);
      RunGrows(accepts, alerted, batch[..n], delivered[..n]);
      assert forall k :: 0 <= k < |c.sent| ==> batch[..n][c.sent[k]] == batch[c.sent[k]];
      assert forall k :: 0 <= k < |c.sent| ==> delivered[..n][c.sent[k]] == delivered[c.sent[k]];
      if c.stop == Completed && c'.sent != c.sent {
        assert c' == Step(accepts, c, batch[n], delivered[n], n);
        assert c'.sent == c.sent + [n];
      } else {
        assert c'.sent == c.sent;
      }
    }
  }

  predicate Increasing(s: seq<nat>) {
    forall k, l :: 0 <= k < l < |s| ==> s[k] < s[l]
  }

  /** The alerts of a cycle come in batch order. */
  lemma {:induction false} RunSentIncreasing(accepts: Json -> bool, alerted: set<Key>, batch: seq<Json>, delivered: seq<bool>)
    requires |batch| == |delivered|
    ensures Increasing(Run(accepts, alerted, batch, delivered).sent)
  {
    if batch != [] {
      var n := |batch| - 1;
      var c := Run(accepts, alerted, batch[..n], delivered[..n]);
      RunSentIncreasing(accepts, alerted, batch[..n], delivered[..n]);
      if c.stop == Completed && Run(accepts, alerted, batch, delivered).sent != c.sent {
        assert Run(accepts, alerted, batch, delivered).sent == c.sent + [n];
        assert forall k :: 0 <= k < |c.sent| ==> c.sent[k] < n;
      }
    }
  }

  /** After a cycle the alerted set is the old one plus the addresses just alerted. */
  lemma {:induction false} RunAlertedExactly(accepts: Json -> bool, alerted: set<Key>, batch: seq<Json>, delivered: seq<bool>)
    requires |batch| == |delivered|
    ensures var c := Run(accepts, alerted, batch, delivered);
      forall key :: key in c.alerted <==>
        key in alerted || exists k :: 0 <= k < |c.sent| && HasAddress(batch[c.sent[k]], key)
  {
    if batch != [] {
      var n := |batch| - 1;
      var c := Run(accepts, alerted, batch[..n], delivered[..n]);
      var c' := Run(accepts, alerted, batch, delivered);
      RunAlertedExactly(accepts, alerted, batch[..n], delivered[..n]);
      assert |c.sent| <= |c'.sent|;
      assert forall k :: 0 <= k < |c.sent| ==> c'.sent[k] == c.sent[k];
      assert forall k :: 0 <= k < |c.sent| ==> batch[..n][c.sent[k]] == batch[c.sent[k]];
      assert |c'.sent| > |c.sent| ==>
        (|c'.sent| == |c.sent| + 1 && c'.sent[|c.sent|] == n &&
         c'.alerted == c.alerted + {Address(batch[n]).value} && Address(batch[n]).Ok?);
      assert |c'.sent| == |c.sent| ==> c'.alerted == c.alerted;
      forall key ensures key in c'.alerted <==>
        key in alerted || exists k :: 0 <= k < |c'.sent| && HasAddress(batch[c'.sent[k]], key)
      {
        if key in c.alerted && key !in alerted {
          var k :| 0 <= k < |c.sent| && HasAddress(batch[..n][c.sent[k]], key);
          assert HasAddress(batch[c'.sent[k]], key);
        }
        if |c'.sent| > |c.sent| {
          assert HasAddress(batch[c'.sent[|c.sent|]], Address(batch[n]).value);
        }
        if exists k :: 0 <= k < |c'.sent| && HasAddress(batch[c'.sent[k]], key) {
          var k :| 0 <= k < |c'.sent| && HasAddress(batch[c'.sent[k]], key);
          if k < |c.sent| {
            assert HasAddress(batch[..n][c.sent[k]], key);
          }
        }
      }
    }
  }

  /** No address is alerted twice within one cycle, even when it occurs twice in the batch. */
  lemma {:induction false} RunSentDistinct(accepts: Json -> bool, alerted: set<Key>, batch: seq<Json>, delivered: seq<bool>)
    requires |batch| == |delivered|
    ensures var c := Run(accepts, alerted, batch, delivered);
      forall k, l :: 0 <= k < l < |c.sent| ==> Address(batch[c.sent[k]]) != Address(batch[c.sent[l]])
  {
    if batch != [] {
      var n := |batch| - 1;
      var c := Run(accepts, alerted, batch[..n], delivered[..n]);
      var c' := Run(accepts, alerted, batch, delivered);
      RunSentDistinct(accepts, alerted, batch[..n], delivered[..n]);
      RunAlertedExactly(accepts, alerted, batch[..n], delivered[..n]);
      RunSentQualify(accepts, alerted, batch[..n], delivered[..n]);
      assert forall k :: 0 <= k < |c.sent| ==> c'.sent[k] == c.sent[k];
      assert forall k :: 0 <= k < |c.sent| ==> batch[..n][c.sent[k]] == batch[c.sent[k]];
      forall k, l | 0 <= k < l < |c'.sent|
        ensures Address(batch[c'.sent[k]]) != Address(batch[c'.sent[l]])
      {
        if l >= |c.sent| {
          assert c'.sent[l] == n;
          assert Address(batch[n]).Ok? && Address(batch[n]).value !in c.alerted;
          assert HasAddress(batch[..n][c.sent[k]], Address(batch[c.sent[k]]).value);
        }
      }
    }
  }

  /**
   * A cycle that was not stopped has gone through every token: each one had
   * an address, and every token that passes the filter has its address in
   * the alerted set afterwards.
   */
  lemma {:induction false} RunCompletedCoversBatch(accepts: Json -> bool, alerted: set<Key>, batch: seq<Json>, delivered: seq<bool>)
    requires |batch| == |delivered|
    requires Run(accepts, alerted, batch, delivered).stop == Completed
    ensures forall i :: 0 <= i < |batch| ==> Address(batch[i]).Ok?
    ensures forall i :: 0 <= i < |batch| && accepts(batch[i]) ==>
      Address(batch[i]).value in Run(accepts, alerted, batch, delivered).alerted
  {
    if batch != [] {
      var n := |batch| - 1;
      RunCompletedCoversBatch(accepts, alerted, batch[..n], delivered[..n]);
      RunGrows(accepts, Run(accepts, alerted, batch[..n], delivered[..n]).alerted, [batch[n]], [delivered[n]]);
      assert forall i :: 0 <= i < n ==> batch[i] == batch[..n][i];
    }
  }

  /**
   * A failed send stops the cycle at its token: that token passed the filter,
   * its address stays unmarked, and every alert of the cycle came before it.
   */
  lemma {:induction false} RunSendFailure(accepts: Json -> bool, alerted: set<Key>, batch: seq<Json>, delivered: seq<bool>)
    requires |batch| == |delivered|
    requires Run(accepts, alerted, batch, delivered).stop.SendFailed?
    ensures var c := Run(accepts, alerted, batch, delivered);
      var i := c.stop.at;
      && !delivered[i]
      && accepts(batch[i])
      && Address(batch[i]).Ok?
      && Address(batch[i]).value !in c.alerted
      && forall k :: 0 <= k < |c.sent| ==> c.sent[k] < i
  {
    var n := |batch| - 1;
    var c := Run(accepts, alerted, batch[..n], delivered[..n]);
    if c.stop.SendFailed? {
      RunSendFailure(accepts, alerted, batch[..n], delivered[..n]);
      assert batch[..n][c.stop.at] == batch[c.stop.at];
      assert delivered[..n][c.stop.at] == delivered[c.stop.at];
    }
  }

  /** A token without a usable address stops the cycle, after the alerts before it. */
  lemma {:induction false} RunAddressFailure(accepts: Json -> bool, alerted: set<Key>, batch: seq<Json>, delivered: seq<bool>)
    requires |batch| == |delivered|
    requires Run(accepts, alerted, batch, delivered).stop.AddressFailed?
    ensures var c := Run(accepts, alerted, batch, delivered);
      var i := c.stop.at;
      && Address(batch[i]).Err?
      && forall k :: 0 <= k < |c.sent| ==> c.sent[k] < i
  {
    var n := |batch| - 1;
    var c := Run(accepts, alerted, batch[..n], delivered[..n]);
    if c.stop.AddressFailed? {
      RunAddressFailure(accepts, alerted, batch[..n], delivered[..n]);
      assert batch[..n][c.stop.at] == batch[c.stop.at];
    }
  }

  /** Once a cycle has stopped, the tokens after the failing one change nothing. */
  lemma {:induction false} RunIgnoresRest(accepts: Json -> bool, alerted: set<Key>, batch: seq<Json>, delivered: seq<bool>,
                                          rest: seq<Json>, restDelivered: seq<bool>)
    requires |batch| == |delivered| && |rest| == |restDelivered|
    requires Run(accepts, alerted, batch, delivered).stop != Completed
    ensures Run(accepts, alerted, batch + rest, delivered + restDelivered) == Run(accepts, alerted, batch, delivered)
  {
    if rest == [] {
      assert batch + rest == batch;
      assert delivered + restDelivered == delivered;
    } else {
      var m := |rest| - 1;
      RunIgnoresRest(accepts, alerted, batch, delivered, rest[..m], restDelivered[..m]);
      assert (batch + rest)[..|batch| + m] == batch + rest[..m];
      assert (delivered + restDelivered)[..|batch| + m] == delivered + restDelivered[..m];
    }
  }

  /** A loop that leaves after `i` tokens, at the end or at an exception, has run the whole cycle. */
  lemma RunOfPrefix(accepts: Json -> bool, alerted: set<Key>, batch: seq<Json>, delivered: seq<bool>, i: nat)
    requires |batch| == |delivered| && i <= |batch|
    requires i == |batch| || Run(accepts, alerted, batch[..i], delivered[..i]).stop != Completed
    ensures Run(accepts, alerted, batch, delivered) == Run(accepts, alerted, batch[..i], delivered[..i])
  {
    if i < |batch| {
      RunIgnoresRest(accepts, alerted, batch[..i], delivered[..i], batch[i..], delivered[i..]);
      assert batch[..i] + batch[i..] == batch;
      assert delivered[..i] + delivered[i..] == delivered;
    } else {
      assert batch[..i] == batch;
      assert delivered[..i] == delivered;
    }
  }

  /** The cycle of bot.py as written sends nothing: its filter rejects every token. */
  lemma {:induction false} AsWrittenCycleSendsNothing(alerted: set<Key>, batch: seq<Json>, delivered: seq<bool>)
    requires |batch| == |delivered|
    ensures Run(CheckConditionsAsWritten, alerted, batch, delivered).sent == []
    ensures Run(CheckConditionsAsWritten, alerted, batch, delivered).alerted == alerted
  {
    if batch != [] {
      var n := |batch| - 1;
      AsWrittenCycleSendsNothing(alerted, batch[..n], delivered[..n]);
    }
  }

  // ---------------------------------------------------------------------------
  // Consecutive cycles

  /** The `k`-th alert of a cycle, as `RunSentQualify` and `RunAlertedExactly` describe it. */
  lemma SentAt(accepts: Json -> bool, alerted: set<Key>, batch: seq<Json>, delivered: seq<bool>, k: nat)
    requires |batch| == |delivered|
    requires k < |Run(accepts, alerted, batch, delivered).sent|
    ensures var c := Run(accepts, alerted, batch, delivered);
      && Address(batch[c.sent[k]]).Ok?
      && Address(batch[c.sent[k]]).value !in alerted
      && Address(batch[c.sent[k]]).value in c.alerted
  {
    RunSentQualify(accepts, alerted, batch, delivered);
    RunAlertedExactly(accepts, alerted, batch, delivered);
    var c := Run(accepts, alerted, batch, delivered);
    assert c == Run(accepts, alerted, batch, delivered);
    assert HasAddress(batch[c.sent[k]], Address(batch[c.sent[k]]).value);
  }

  /**
   * Across two consecutive cycles no address is alerted twice: the second
   * starts from the set the first left behind.
   */
  lemma ConsecutiveCyclesAlertOnce(accepts: Json -> bool, alerted: set<Key>, first: seq<Json>, firstDelivered: seq<bool>,
                                   second: seq<Json>, secondDelivered: seq<bool>)
    requires |first| == |firstDelivered| && |second| == |secondDelivered|
    ensures var c1 := Run(accepts, alerted, first, firstDelivered);
      var c2 := Run(accepts, c1.alerted, second, secondDelivered);
      forall k, l :: 0 <= k < |c1.sent| && 0 <= l < |c2.sent| ==>
        Address(first[c1.sent[k]]) != Address(second[c2.sent[l]])
  {
    var c1 := Run(accepts, alerted, first, firstDelivered);
    var c2 := Run(accepts, c1.alerted, second, secondDelivered);
    forall k, l | 0 <= k < |c1.sent| && 0 <= l < |c2.sent|
      ensures Address(first[c1.sent[k]]) != Address(second[c2.sent[l]])
    {
      SentAt(accepts, alerted, first, firstDelivered, k);
      SentAt(accepts, c1.alerted, second, secondDelivered, l);
    }
  }

  /**
   * A qualifying token of a batch whose cycle ran to the end is alerted at
   * least once (it was alerted in an earlier cycle or in this one) and is not
   * alerted again in the next cycle, whatever that batch holds.
   */
  lemma RepeatedTokenAlertedOnce(accepts: Json -> bool, alerted: set<Key>, first: seq<Json>, firstDelivered: seq<bool>,
                                 second: seq<Json>, secondDelivered: seq<bool>, j: nat)
    requires |first| == |firstDelivered| && |second| == |secondDelivered| && j < |first|
    requires accepts(first[j])
    requires Run(accepts, alerted, first, firstDelivered).stop == Completed
    ensures Address(first[j]).Ok?
    ensures var c1 := Run(accepts, alerted, first, firstDelivered);
      var key := Address(first[j]).value;
      key in alerted || exists k :: 0 <= k < |c1.sent| && HasAddress(first[c1.sent[k]], key)
    ensures var c1 := Run(accepts, alerted, first, firstDelivered);
      var c2 := Run(accepts, c1.alerted, second, secondDelivered);
      forall l :: 0 <= l < |c2.sent| ==> !HasAddress(second[c2.sent[l]], Address(first[j]).value)
  {
    var c1 := Run(accepts, alerted, first, firstDelivered);
    var c2 := Run(accepts, c1.alerted, second, secondDelivered);
    RunCompletedCoversBatch(accepts, alerted, first, firstDelivered);
    RunAlertedExactly(accepts, alerted, first, firstDelivered);
    RunSentQualify(accepts, c1.alerted, second, secondDelivered);
    assert c1 == Run(accepts, alerted, first, firstDelivered);
    assert c2 == Run(accepts, c1.alerted, second, secondDelivered);
  }

  // ---------------------------------------------------------------------------
  // The analyzer object

  class TokenAnalyzer {
    /** `self.already_alerted`: the addresses alerted so far by this process. */
    var alreadyAlerted: set<Key>

    /** `__init__` starts with an empty set; the bot and channel are not modelled. */
    constructor ()
      ensures alreadyAlerted == {}
    {
      alreadyAlerted := {};
    }

    /**
     * `run_check` over a fetched batch. Returns the indices of the tokens
     * alerted, in order, and how the cycle ended (the exception that the
     * handler logs).
     */
    method RunCheck(batch: seq<Json>, delivered: seq<bool>) returns (sent: seq<nat>, stop: Stop)
      requires |batch| == |delivered|
      modifies this
      ensures Cycle(alreadyAlerted, sent, stop) == Run(CheckConditions, old(alreadyAlerted), batch, delivered)
      ensures old(alreadyAlerted) <= alreadyAlerted
      ensures forall k :: 0 <= k < |sent| ==>
        && sent[k] < |batch|
        && Address(batch[sent[k]]).Ok?
        && Address(batch[sent[k]]).value !in old(alreadyAlerted)
        && CheckConditions(batch[sent[k]])
      ensures Increasing(sent)
    {
      ghost var initial := alreadyAlerted;
      sent, stop := [], Completed;
      var i := 0;
      while i < |batch| && stop == Completed
        invariant 0 <= i <= |batch|
        invariant Run(CheckConditions, initial, batch[..i], delivered[..i]) == Cycle(alreadyAlerted, sent, stop)
      {
        RunExtend(CheckConditions, initial, batch, delivered, i);
        var token := batch[i];
        var address := Address(token);
        if address.Err? {
          stop := AddressFailed(i);
        } else if address.value !in alreadyAlerted {
          if CheckConditions(token) {
            if delivered[i] {
              alreadyAlerted := alreadyAlerted + {address.value};
              sent := sent + [i];
            } else {
              stop := SendFailed(i);
            }
          }
        }
        i := i + 1;
      }
      RunOfPrefix(CheckConditions, initial, batch, delivered, i);
      RunGrows(CheckConditions, initial, batch, delivered);
      RunSentQualify(CheckConditions, initial, batch, delivered);
      RunSentIncreasing(CheckConditions, initial, batch, delivered);
    }
  }

  /** Two calls of `RunCheck` on one analyzer never alert the same address twice. */
  method TwoCycles(analyzer: TokenAnalyzer, first: seq<Json>, firstDelivered: seq<bool>,
                   second: seq<Json>, secondDelivered: seq<bool>)
    returns (sent1: seq<nat>, sent2: seq<nat>)
    requires |first| == |firstDelivered| && |second| == |secondDelivered|
    modifies analyzer
    ensures forall k, l :: 0 <= k < |sent1| && 0 <= l < |sent2| ==>
      sent1[k] < |first| && sent2[l] < |second| &&
      Address(first[sent1[k]]) != Address(second[sent2[l]])
  {
    ghost var initial := analyzer.alreadyAlerted;
    var stop1, stop2;
    sent1, stop1 := analyzer.RunCheck(first, firstDelivered);
    sent2, stop2 := analyzer.RunCheck(second, secondDelivered);
    ConsecutiveCyclesAlertOnce(CheckConditions, initial, first, firstDelivered, second, secondDelivered);
  }
}
