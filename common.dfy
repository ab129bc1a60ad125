/** Shared vocabulary of the ingestion model: optional values, results,
    the vineyard client status codes the core distinguishes, record batches
    as the loaders see them, and decimal rendering of indices. */
module Common {

  datatype Option<+T> = None | Some(value: T)

  datatype Result<+T, +E> = Ok(value: T) | Err(error: E)

  /** A vineyard `Status`. Only the codes the core tests for are told apart;
      every other error (a server error, an Arrow error) is `Failed(code)`. */
  datatype Status =
    | OK
    | StreamDrained
    | StreamOpened
    | AssertionFailed(msg: string)
    | Invalid(msg: string)
    | Failed(code: nat)

  /** A record batch as the loaders and streams handle it: an opaque payload,
      its row count and its schema metadata (`None` stands for a null
      `KeyValueMetadata` pointer). */
  datatype Batch = Batch(payload: nat, numRows: nat, metadata: Option<map<string, string>>)

  /** An Arrow table: its schema metadata and the batches it is made of. */
  datatype Table = Table(metadata: Option<map<string, string>>, batches: seq<Batch>)

  /** The table built from a list of batches takes the schema (and so the
      metadata) of the first batch. */
  function TableOf(batches: seq<Batch>): (t: Table)
    ensures t.batches == batches
    ensures batches != [] ==> t.metadata == batches[0].metadata
  {
    Table(if batches == [] then None else batches[0].metadata, batches)
  }

  /** Index of the first non-OK status, or `|ss|` when every status is OK:
      where a loop that stops at the first failure stops. */
  function FirstFailure(ss: seq<Status>): (k: nat)
    ensures k <= |ss|
    ensures forall i :: 0 <= i < k ==> ss[i].OK?
    ensures k < |ss| ==> !ss[k].OK?
  {
    if ss == [] then 0
    else if !ss[0].OK? then 0
    else 1 + FirstFailure(ss[1..])
  }

  /** The status a loop returns when it returns the first failure it meets. */
  function FirstError(ss: seq<Status>): (st: Status)
    ensures st.OK? <==> forall i :: 0 <= i < |ss| ==> ss[i].OK?
    ensures !st.OK? ==> st in ss
  {
    var k := FirstFailure(ss);
    if k < |ss| then ss[k] else OK
  }

  /** The first failure is the first index whose status is not OK. */
  lemma FirstFailureAt(ss: seq<Status>, i: nat)
    requires i <= |ss|
    requires forall j :: 0 <= j < i ==> ss[j].OK?
    requires i < |ss| ==> !ss[i].OK?
    ensures FirstFailure(ss) == i
  {
  }

  /** The first failure of a longer list: the earlier one if there was
      one, otherwise the new status. */
  lemma FirstErrorSnoc(ss: seq<Status>, s: Status)
    ensures FirstError(ss + [s]) == if FirstError(ss).OK? then s else FirstError(ss)
  {
    var k := FirstFailure(ss);
    var t := ss + [s];
    if k < |ss| {
      FirstFailureAt(t, k);
    } else if !s.OK? {
      FirstFailureAt(t, |ss|);
    } else {
      FirstFailureAt(t, |t|);
    }
  }

  function DigitChar(d: nat): (c: char)
    requires d < 10
    ensures '0' <= c <= '9'
  {
    "0123456789"[d]
  }

  /** Decimal rendering of a non-negative integer, as C++ `std::to_string`
      and Python `"%d"` produce it. */
  function NatToString(n: nat): (s: string)
    ensures 1 <= |s|
    ensures n < 10 <==> |s| == 1
    ensures forall i :: 0 <= i < |s| ==> '0' <= s[i] <= '9'
    decreases n
  {
    if n < 10 then [DigitChar(n)] else NatToString(n / 10) + [DigitChar(n % 10)]
  }

  lemma DigitCharInjective(a: nat, b: nat)
    requires a < 10 && b < 10 && DigitChar(a) == DigitChar(b)
    ensures a == b
  {
  }

  /** Distinct indices get distinct names: decimal rendering is injective. */
  lemma {:induction false} NatToStringInjective(a: nat, b: nat)
    requires NatToString(a) == NatToString(b)
    ensures a == b
    decreases a
  {
    if a < 10 || b < 10 {
      assert |NatToString(a)| == 1 && |NatToString(b)| == 1;
      assert NatToString(a)[0] == DigitChar(a) && NatToString(b)[0] == DigitChar(b);
      DigitCharInjective(a, b);
    } else {
      var sa, sb := NatToString(a), NatToString(b);
      assert sa == NatToString(a / 10) + [DigitChar(a % 10)];
      assert sb == NatToString(b / 10) + [DigitChar(b % 10)];
      assert sa[|sa| - 1] == DigitChar(a % 10) && sb[|sb| - 1] == DigitChar(b % 10);
      DigitCharInjective(a % 10, b % 10);
      assert sa[..|sa| - 1] == NatToString(a / 10);
      assert sb[..|sb| - 1] == NatToString(b / 10);
      NatToStringInjective(a / 10, b / 10);
    }
  }

  /** Concatenation of a list of lists, in order (Python `chunks.extend` in a loop). */
  function Flatten<T>(xss: seq<seq<T>>): (r: seq<T>)
  {
    if xss == [] then [] else Flatten(xss[..|xss| - 1]) + xss[|xss| - 1]
  }

  /** An element is in the flattening exactly when it is in one of the lists. */
  lemma {:induction false} FlattenMembership<T>(xss: seq<seq<T>>, x: T)
    ensures x in Flatten(xss) <==> exists i :: 0 <= i < |xss| && x in xss[i]
  {
    if xss != [] {
      var init := xss[..|xss| - 1];
      FlattenMembership(init, x);
      assert forall i :: 0 <= i < |init| ==> init[i] == xss[i];
    }
  }

  /** Flattening is a homomorphism from list concatenation. */
  lemma {:induction false} FlattenAppend<T>(xss: seq<seq<T>>, yss: seq<seq<T>>)
    ensures Flatten(xss + yss) == Flatten(xss) + Flatten(yss)
    decreases |yss|
  {
    if yss == [] {
      assert xss + yss == xss;
    } else {
      var ys, last := yss[..|yss| - 1], yss[|yss| - 1];
      assert (xss + yss)[..|xss + yss| - 1] == xss + ys;
      assert Flatten(xss + yss) == Flatten(xss + ys) + last;
      FlattenAppend(xss, ys);
      ConcatAssoc(Flatten(xss), Flatten(ys), last);
    }
  }

  lemma ConcatAssoc<T>(a: seq<T>, b: seq<T>, c: seq<T>)
    ensures a + (b + c) == (a + b) + c
  {
  }

  /** A word followed by two more lists reads back as its head and its tail. */
  lemma HeadTail<T>(x: T, ys: seq<T>, rest: seq<T>)
    ensures ([x] + ys) + rest == [x] + (ys + rest)
    ensures (([x] + ys) + rest)[0] == x && (([x] + ys) + rest)[1..] == ys + rest
  {
    assert ([x] + ys) + rest == [x] + (ys + rest);
  }

  /** The sum of a list of counts. */
  function Sum(xs: seq<nat>): nat
  {
    if xs == [] then 0 else Sum(xs[..|xs| - 1]) + xs[|xs| - 1]
  }

  lemma {:induction false} SumAppend(xs: seq<nat>, ys: seq<nat>)
    ensures Sum(xs + ys) == Sum(xs) + Sum(ys)
    decreases |ys|
  {
    if ys == [] {
      assert xs + ys == xs;
    } else {
      assert (xs + ys)[..|xs + ys| - 1] == xs + ys[..|ys| - 1];
      SumAppend(xs, ys[..|ys| - 1]);
    }
  }
}
