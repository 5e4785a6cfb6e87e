/**
 * The migration that adds `clients.client_number`: the existing clients,
 * read in `created_at` order, are numbered from 1 as `CL-` followed by the
 * number zero-padded to four digits; the column is then made non-null and
 * unique.
 */
module ClientNumberMigration {
  import opened Wrappers
  import opened Models

  /** The width of the `client_number` column, `String(20)`. */
  const ColumnWidth: nat := 20

  function DigitChar(d: nat): char
    requires d < 10
  {
    ('0' as int + d) as char
  }

  function DigitValue(c: char): nat {
    if '0' <= c <= '9' then c as int - '0' as int else 0
  }

  predicate IsDigit(c: char) {
    '0' <= c <= '9'
  }

  /** The decimal digits of `n`, without leading zeros. */
  function Decimal(n: nat): (s: string)
    ensures |s| >= 1 && forall i :: 0 <= i < |s| ==> IsDigit(s[i])
  {
    if n < 10 then [DigitChar(n)] else Decimal(n / 10) + [DigitChar(n % 10)]
  }

  /** `s` with zeros put in front until it is `width` characters long. */
  function ZeroPad(s: string, width: nat): (r: string)
    ensures |r| == if |s| >= width then |s| else width
    ensures |s| >= width ==> r == s
    ensures r[|r| - |s|..] == s && forall i :: 0 <= i < |r| - |s| ==> r[i] == '0'
    decreases width - |s|
  {
    if |s| >= width then s
    else
      var r := ZeroPad("0" + s, width);
      assert r[|r| - |s|..] == r[|r| - |s| - 1..][1..];
      r
  }

  /** `f"CL-{idx:04d}"` for a non-negative `idx`. */
  function ClientNumber(idx: nat): (r: string)
    ensures |r| >= 7 && r[..3] == "CL-"
  {
    "CL-" + ZeroPad(Decimal(idx), 4)
  }

  /** The number a string of digits denotes, read from the left. */
  function DecimalValue(s: string): nat
    decreases |s|
  {
    if s == [] then 0 else DecimalValue(s[..|s| - 1]) * 10 + DigitValue(s[|s| - 1])
  }

  lemma {:induction false} DecimalRoundTrip(n: nat)
    ensures DecimalValue(Decimal(n)) == n
  {
    var s := Decimal(n);
    if n >= 10 {
      DecimalRoundTrip(n / 10);
      assert s[..|s| - 1] == Decimal(n / 10);
    }
  }

  /** A leading zero does not change the value. */
  lemma {:induction false} LeadingZero(s: string)
    ensures DecimalValue("0" + s) == DecimalValue(s)
    decreases |s|
  {
    if s != [] {
      assert ("0" + s)[..|s|] == "0" + s[..|s| - 1];
      LeadingZero(s[..|s| - 1]);
    }
  }

  lemma {:induction false} ZeroPadKeepsValue(s: string, width: nat)
    ensures DecimalValue(ZeroPad(s, width)) == DecimalValue(s)
    decreases width - |s|
  {
    if |s| < width {
      ZeroPadKeepsValue("0" + s, width);
      LeadingZero(s);
    }
  }

  lemma {:induction false} ZeroPadKeepsDigits(s: string, width: nat)
    requires forall i :: 0 <= i < |s| ==> IsDigit(s[i])
    ensures forall i :: 0 <= i < |ZeroPad(s, width)| ==> IsDigit(ZeroPad(s, width)[i])
    decreases width - |s|
  {
    if |s| < width {
      ZeroPadKeepsDigits("0" + s, width);
    }
  }

  /** The number can be read back from the text: the k-th client's number denotes k. */
  lemma ClientNumberDenotes(idx: nat)
    ensures ClientNumber(idx)[..3] == "CL-"
    ensures |ClientNumber(idx)| >= 7
    ensures forall i :: 3 <= i < |ClientNumber(idx)| ==> IsDigit(ClientNumber(idx)[i])
    ensures DecimalValue(ClientNumber(idx)[3..]) == idx
  {
    ZeroPadKeepsDigits(Decimal(idx), 4);
    assert ClientNumber(idx)[3..] == ZeroPad(Decimal(idx), 4);
    ZeroPadKeepsValue(Decimal(idx), 4);
    DecimalRoundTrip(idx);
  }

  /** Different positions get different numbers, so the unique constraint added afterwards holds. */
  lemma ClientNumberInjective(a: nat, b: nat)
    requires ClientNumber(a) == ClientNumber(b)
    ensures a == b
  {
    ClientNumberDenotes(a);
    ClientNumberDenotes(b);
  }

  lemma FirstClientNumber()
    ensures ClientNumber(1) == "CL-0001"
  {
    assert Decimal(1) == "1";
    assert "0" + "1" == "01" && "0" + "01" == "001" && "0" + "001" == "0001";
    assert ZeroPad("1", 4) == ZeroPad("01", 4);
    assert ZeroPad("01", 4) == ZeroPad("001", 4);
    assert ZeroPad("001", 4) == "0001";
  }

  function Pow10(k: nat): nat {
    if k == 0 then 1 else 10 * Pow10(k - 1)
  }

  lemma {:induction false} DecimalLength(n: nat, digits: nat)
    requires 1 <= digits && n < Pow10(digits)
    ensures |Decimal(n)| <= digits
  {
    if n >= 10 {
      DecimalLength(n / 10, digits - 1);
    }
  }

  /** Up to 10^17 - 1 clients, every number fits the 20-character column. */
  lemma ClientNumberFitsColumn(idx: nat)
    requires idx < Pow10(17)
    ensures |ClientNumber(idx)| <= ColumnWidth
  {
    DecimalLength(idx, 17);
  }

  /**
   * `SELECT id FROM clients ORDER BY created_at`, as positions in the
   * table: every row exactly once, in non-decreasing creation time.
   */
  predicate CreationOrder(rows: seq<Client>, order: seq<nat>) {
    && |order| == |rows|
    && (forall k :: 0 <= k < |order| ==> order[k] < |rows|)
    && (forall k, l :: 0 <= k < l < |order| ==> order[k] != order[l])
    && (forall i :: 0 <= i < |rows| ==> i in order)
    && (forall k, l :: 0 <= k < l < |order| ==> rows[order[k]].createdAt <= rows[order[l]].createdAt)
  }

  /** Where a table position comes in the creation order. */
  lemma PositionInOrder(rows: seq<Client>, order: seq<nat>, i: nat) returns (k: nat)
    requires CreationOrder(rows, order) && i < |rows|
    ensures k < |order| && order[k] == i
  {
    assert i in order;
    k :| 0 <= k < |order| && order[k] == i;
  }

  /** Two positions of the creation order, the first holding a strictly earlier client, come in that order. */
  lemma EarlierComesFirst(rows: seq<Client>, order: seq<nat>, ki: nat, kj: nat)
    requires CreationOrder(rows, order) && ki < |order| && kj < |order|
    requires rows[order[ki]].createdAt < rows[order[kj]].createdAt
    ensures ki < kj
  {
  }

  /**
   * `after` is `rows` with the k-th client of the creation order numbered
   * k + 1 and nothing else changed.
   */
  predicate NumberedAlong(rows: seq<Client>, order: seq<nat>, after: seq<Client>)
    requires CreationOrder(rows, order)
  {
    && |after| == |rows|
    && forall k :: 0 <= k < |order| ==> after[order[k]] == rows[order[k]].(clientNumber := Some(ClientNumber(k + 1)))
  }

  /** Numbering along a creation order leaves no client without a number and gives no two the same. */
  lemma NumberedRowsDistinct(rows: seq<Client>, order: seq<nat>, after: seq<Client>)
    requires CreationOrder(rows, order) && NumberedAlong(rows, order, after)
    ensures forall i :: 0 <= i < |after| ==> after[i].clientNumber.Some?
    ensures forall i, j :: 0 <= i < j < |after| ==> after[i].clientNumber != after[j].clientNumber
  {
    forall i | 0 <= i < |after|
      ensures after[i].clientNumber.Some?
    {
      var ki := PositionInOrder(rows, order, i);
    }
    forall i, j | 0 <= i < j < |after|
      ensures after[i].clientNumber != after[j].clientNumber
    {
      var ki := PositionInOrder(rows, order, i);
      var kj := PositionInOrder(rows, order, j);
      if ClientNumber(ki + 1) == ClientNumber(kj + 1) {
        ClientNumberInjective(ki + 1, kj + 1);
      }
    }
  }

  /** The number a client's `client_number` denotes after the `CL-` prefix; 0 when it has none. */
  function NumberValue(c: Client): nat {
    if c.clientNumber.Some? && |c.clientNumber.value| >= 3 then DecimalValue(c.clientNumber.value[3..]) else 0
  }

  lemma NumberValueOfClientNumber(c: Client, idx: nat)
    requires c.clientNumber == Some(ClientNumber(idx))
    ensures NumberValue(c) == idx
  {
    ClientNumberDenotes(idx);
  }

  /** Numbering along a creation order: a client created strictly earlier gets a smaller number. */
  lemma NumbersFollowCreationOrder(rows: seq<Client>, order: seq<nat>, after: seq<Client>)
    requires CreationOrder(rows, order) && NumberedAlong(rows, order, after)
    ensures forall i, j :: 0 <= i < |after| && 0 <= j < |after| && after[i].createdAt < after[j].createdAt ==>
      NumberValue(after[i]) < NumberValue(after[j])
  {
    forall i, j | 0 <= i < |after| && 0 <= j < |after| && after[i].createdAt < after[j].createdAt
      ensures NumberValue(after[i]) < NumberValue(after[j])
    {
      var ki := PositionInOrder(rows, order, i);
      var kj := PositionInOrder(rows, order, j);
      EarlierComesFirst(rows, order, ki, kj);
      NumberValueOfClientNumber(after[i], ki + 1);
      NumberValueOfClientNumber(after[j], kj + 1);
    }
  }

  /**
   * `upgrade()`: one `UPDATE clients SET client_number = ... WHERE id = ...`
   * per row of the ordered result, numbering from 1. Afterwards every
   * client has a number, the numbers follow creation order, no two clients
   * share one, and no other column changed.
   */
  method Upgrade(table: array<Client>, order: seq<nat>)
    requires CreationOrder(table[..], order)
    requires forall i :: 0 <= i < table.Length ==> table[i].clientNumber.None?
    modifies table
    ensures forall k :: 0 <= k < |order| ==>
      table[order[k]] == old(table[order[k]]).(clientNumber := Some(ClientNumber(k + 1)))
    ensures forall i :: 0 <= i < table.Length ==> table[i].clientNumber.Some?
    ensures forall i, j :: 0 <= i < j < table.Length ==> table[i].clientNumber != table[j].clientNumber
    ensures forall i, j :: 0 <= i < table.Length && 0 <= j < table.Length && table[i].createdAt < table[j].createdAt ==>
      NumberValue(table[i]) < NumberValue(table[j])
  {
    ghost var rows := table[..];
    for k := 0 to |order|
      invariant forall l :: 0 <= l < k ==> table[order[l]] == rows[order[l]].(clientNumber := Some(ClientNumber(l + 1)))
      invariant forall l :: k <= l < |order| ==> table[order[l]] == rows[order[l]]
    {
      var idx := k + 1;
      var clientNumber := ClientNumber(idx);
      var pos := order[k];
      table[pos] := table[pos].(clientNumber := Some(clientNumber));
    }
    assert NumberedAlong(rows, order, table[..]);
    NumberedRowsDistinct(rows, order, table[..]);
    NumbersFollowCreationOrder(rows, order, table[..]);
  }
}
