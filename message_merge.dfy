/** The duplicate filter of the store's `addMessages` action.

    The store keys a message by the string `${time}-${message}` and appends only those
    incoming messages whose key is not the key of a message already held. The key is
    modelled as that very string: the decimal rendering of the integer time, a dash,
    then the text. `KeyInjective` shows that for integer times the string determines
    the pair (time, text), so the filter really compares those pairs. */
module MessageMerge {
  import opened Wire
  import opened Subsequences

  predicate IsDigit(c: char) {
    '0' <= c <= '9'
  }

  function DigitChar(d: nat): (c: char)
    requires d < 10
    ensures IsDigit(c)
  {
    (d + '0' as int) as char
  }

  /** Decimal rendering of a natural number, most significant digit first. */
  function NatToDecimal(n: nat): (r: string)
    ensures |r| >= 1
    ensures forall i :: 0 <= i < |r| ==> IsDigit(r[i])
    ensures n >= 10 ==> |r| >= 2
  {
    if n < 10 then [DigitChar(n)] else NatToDecimal(n / 10) + [DigitChar(n % 10)]
  }

  /** JavaScript's rendering of an integer-valued number (below 10^21 in magnitude). */
  function IntToDecimal(t: int): (r: string)
    ensures |r| >= 1
    ensures forall i :: 1 <= i < |r| ==> IsDigit(r[i])
    ensures r[0] == '-' <==> t < 0
  {
    if t < 0 then "-" + NatToDecimal(-t) else NatToDecimal(t)
  }

  /** The store's duplicate key `${m.time}-${m.message}`. */
  function Key(m: Message): string {
    IntToDecimal(m.time) + "-" + m.message
  }

  /** The pair the key is meant to stand for. */
  predicate SameKey(a: Message, b: Message) {
    a.time == b.time && a.message == b.message
  }

  lemma {:induction false} NatToDecimalInjective(a: nat, b: nat)
    requires NatToDecimal(a) == NatToDecimal(b)
    ensures a == b
  {
    var ra, rb := NatToDecimal(a), NatToDecimal(b);
    if a < 10 || b < 10 {
      assert a < 10 && b < 10;
      assert ra[0] == rb[0];
    } else {
      var pa, pb := NatToDecimal(a / 10), NatToDecimal(b / 10);
      assert ra == pa + [DigitChar(a % 10)];
      assert rb == pb + [DigitChar(b % 10)];
      assert |pa| == |pb|;
      assert pa == ra[..|ra| - 1] == rb[..|rb| - 1] == pb;
      assert ra[|ra| - 1] == rb[|rb| - 1];
      NatToDecimalInjective(a / 10, b / 10);
    }
  }

  lemma IntToDecimalInjective(a: int, b: int)
    requires IntToDecimal(a) == IntToDecimal(b)
    ensures a == b
  {
    if a < 0 {
      assert b < 0;
      assert NatToDecimal(-a) == IntToDecimal(a)[1..] == IntToDecimal(b)[1..] == NatToDecimal(-b);
      NatToDecimalInjective(-a, -b);
    } else {
      assert b >= 0;
      NatToDecimalInjective(a, b);
    }
  }

  /** The dash that follows a rendered integer is the first dash after position 0. */
  lemma SeparatorAfterNumber(k: string, x: string, text: string)
    requires k == x + "-" + text
    requires forall i :: 1 <= i < |x| ==> IsDigit(x[i])
    ensures |x| < |k| && k[|x|] == '-'
    ensures forall i :: 1 <= i < |x| ==> k[i] != '-'
  {
  }

  /** In `x + "-" + y` with `x` a rendered integer, the first dash after position 0
      is the separator, so equal keys have equal time renderings and equal texts. */
  lemma {:induction false} KeyInjective(a: Message, b: Message)
    ensures Key(a) == Key(b) <==> SameKey(a, b)
  {
    if Key(a) == Key(b) {
      var k, xa, xb := Key(a), IntToDecimal(a.time), IntToDecimal(b.time);
      SeparatorAfterNumber(k, xa, a.message);
      SeparatorAfterNumber(k, xb, b.message);
      assert |xa| == |xb|;
      assert xa == k[..|xa|] == xb;
      assert a.message == k[|xa| + 1..] == b.message;
      IntToDecimalInjective(a.time, b.time);
    }
  }

  /** The keys of the messages held: `existingKeys`. */
  function KeySet(ms: seq<Message>): set<string> {
    set m | m in ms :: Key(m)
  }

  /** The incoming messages that survive the filter: `uniqueNew`. */
  function Fresh(existing: set<string>, incoming: seq<Message>): (r: seq<Message>)
    ensures |r| <= |incoming|
    ensures forall x :: x in r <==> x in incoming && Key(x) !in existing
  {
    if incoming == [] then []
    else (if Key(incoming[0]) in existing then [] else [incoming[0]]) + Fresh(existing, incoming[1..])
  }

  /** Every surviving message keeps its multiplicity in the batch; the others vanish. */
  lemma {:induction false} FreshCounts(existing: set<string>, incoming: seq<Message>, m: Message)
    ensures multiset(Fresh(existing, incoming))[m] == if Key(m) in existing then 0 else multiset(incoming)[m]
  {
    if incoming != [] {
      var x, rest := incoming[0], incoming[1..];
      FreshCounts(existing, rest, m);
      assert incoming == [x] + rest;
      assert multiset(incoming) == multiset([x]) + multiset(rest);
      if Key(x) in existing {
        assert Fresh(existing, incoming) == Fresh(existing, rest);
      } else {
        assert Fresh(existing, incoming) == [x] + Fresh(existing, rest);
        assert multiset(Fresh(existing, incoming)) == multiset([x]) + multiset(Fresh(existing, rest));
      }
    }
  }

  /** A batch whose every key is already held leaves nothing to append. */
  lemma {:induction false} FreshOfHeld(existing: set<string>, incoming: seq<Message>)
    requires forall x :: x in incoming ==> Key(x) in existing
    ensures Fresh(existing, incoming) == []
  {
    if incoming != [] {
      FreshOfHeld(existing, incoming[1..]);
    }
  }

  /** The new message list after `addMessages(incoming)`. */
  function Merge(existing: seq<Message>, incoming: seq<Message>): (r: seq<Message>)
    ensures |existing| <= |r| <= |existing| + |incoming|
    ensures r[..|existing|] == existing
    ensures forall i :: |existing| <= i < |r| ==> r[i] in incoming
    ensures forall i, m :: |existing| <= i < |r| && m in existing ==> !SameKey(r[i], m)
  {
    var r := existing + Fresh(KeySet(existing), incoming);
    forall i, m | |existing| <= i < |r| && m in existing ensures r[i] in incoming && !SameKey(r[i], m) {
      var x := r[i];
      assert x in Fresh(KeySet(existing), incoming);
      assert Key(m) in KeySet(existing);
      KeyInjective(x, m);
    }
    r
  }

  /** The survivors appear in the order they had in the batch. */
  lemma {:induction false} FreshIsSubsequence(existing: set<string>, incoming: seq<Message>)
    ensures IsSubsequence(Fresh(existing, incoming), incoming)
  {
    if incoming != [] {
      var x, rest := incoming[0], incoming[1..];
      FreshIsSubsequence(existing, rest);
      assert incoming == [x] + rest;
      ConsSubsequence(x, Fresh(existing, rest), rest);
      if Key(x) in existing {
        assert Fresh(existing, incoming) == Fresh(existing, rest);
      } else {
        assert Fresh(existing, incoming) == [x] + Fresh(existing, rest);
      }
    }
  }

  /** Old list first, then the surviving part of the batch in batch order. */
  lemma MergeAppendsInOrder(existing: seq<Message>, incoming: seq<Message>)
    ensures exists tail :: Merge(existing, incoming) == existing + tail && IsSubsequence(tail, incoming)
  {
    var tail := Fresh(KeySet(existing), incoming);
    FreshIsSubsequence(KeySet(existing), incoming);
    assert Merge(existing, incoming) == existing + tail;
  }

  /** A single message is appended exactly when no held message has its
      (time, text); otherwise the list is left as it was. */
  lemma MergeOne(existing: seq<Message>, m: Message)
    ensures Merge(existing, [m]) ==
      if exists held :: held in existing && SameKey(m, held) then existing else existing + [m]
  {
    if exists held :: held in existing && SameKey(m, held) {
      var held :| held in existing && SameKey(m, held);
      KeyInjective(m, held);
      assert Key(m) in KeySet(existing);
      assert Fresh(KeySet(existing), [m]) == [];
    } else if Key(m) in KeySet(existing) {
      var held :| held in existing && Key(held) == Key(m);
      KeyInjective(m, held);
    } else {
      assert Fresh(KeySet(existing), [m]) == [m];
    }
  }

  /** The filter looks only at messages already held, never inside the batch: two
      copies of a new message in one batch are both appended. */
  lemma BatchDuplicatesKept(existing: seq<Message>, m: Message)
    requires forall held :: held in existing ==> !SameKey(m, held)
    ensures Merge(existing, [m, m]) == existing + [m, m]
  {
    if Key(m) in KeySet(existing) {
      var held :| held in existing && Key(held) == Key(m);
      KeyInjective(m, held);
    }
    assert [m, m][1..] == [m];
    assert Fresh(KeySet(existing), [m]) == [m];
  }

  /** The keys held afterwards are the old keys together with all keys of the batch. */
  lemma MergeKeys(existing: seq<Message>, incoming: seq<Message>)
    ensures KeySet(Merge(existing, incoming)) == KeySet(existing) + KeySet(incoming)
  {
    var kept := Fresh(KeySet(existing), incoming);
    var r := Merge(existing, incoming);
    assert r == existing + kept;
    forall k | k in KeySet(existing) + KeySet(incoming) ensures k in KeySet(r) {
      if k !in KeySet(existing) {
        var m :| m in incoming && Key(m) == k;
        assert m in kept;
      }
    }
    forall k | k in KeySet(r) ensures k in KeySet(existing) + KeySet(incoming) {
      var m :| m in r && Key(m) == k;
      if m !in existing {
        assert m in kept;
      }
    }
  }

  /** Delivering the same batch twice has the effect of delivering it once. */
  lemma MergeIdempotent(existing: seq<Message>, incoming: seq<Message>)
    ensures Merge(Merge(existing, incoming), incoming) == Merge(existing, incoming)
  {
    var once := Merge(existing, incoming);
    MergeKeys(existing, incoming);
    FreshOfHeld(KeySet(once), incoming);
  }
}
