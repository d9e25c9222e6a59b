/**
 * The memory percentage: a scan of `/proc/meminfo` that picks up `MemTotal:` and stops at
 * the first `MemAvailable:`, and the guarded used-memory percentage computed from the two.
 */
module Memory {
  import opened Common

  const MemTotalKey := "MemTotal:"
  const MemAvailableKey := "MemAvailable:"

  /** The index of the first `MemAvailable:` line, or the number of lines when there is none. */
  function AvailableIndex(lines: seq<Field>): (k: nat)
    ensures k <= |lines|
  {
    if lines == [] then 0
    else if lines[0].key == MemAvailableKey then 0
    else 1 + AvailableIndex(lines[1..])
  }

  /** The value of the last `MemTotal:` line, or 0 when there is none. */
  function LastTotal(lines: seq<Field>): int
  {
    if lines == [] then 0
    else if lines[|lines| - 1].key == MemTotalKey then lines[|lines| - 1].value
    else LastTotal(lines[..|lines| - 1])
  }

  /** What the scan of the file leaves in `memTotal` and `memAvailable`. */
  datatype MemInfo = MemInfo(total: int, available: int)

  function ScanMeminfo(lines: seq<Field>): MemInfo
  {
    var k := AvailableIndex(lines);
    MemInfo(LastTotal(lines[..k]), if k < |lines| then lines[k].value else 0)
  }

  /**
   * Used memory as a percentage of the total: 0 when the total is 0 (no division),
   * otherwise 100·(total − available)/total.
   */
  function MemPercent(m: MemInfo): (r: real)
    ensures m.total == 0 ==> r == 0.0
    ensures m.total != 0 ==> r * m.total as real == 100.0 * (m.total - m.available) as real
  {
    if m.total == 0 then 0.0
    else 100.0 * (m.total - m.available) as real / m.total as real
  }

  /**
   * Reads the meminfo lines token by token: records each `MemTotal:` value, takes the first
   * `MemAvailable:` value and stops there, and skips every other line.
   */
  method GetMemoryUsage(lines: seq<Field>) returns (percent: real)
    ensures percent == MemPercent(ScanMeminfo(lines))
  {
    AvailableIndexSpec(lines);
    var memTotal, memAvailable := 0, 0;
    var i := 0;
    while i < |lines|
      invariant 0 <= i <= AvailableIndex(lines)
      invariant memTotal == LastTotal(lines[..i])
      invariant memAvailable == 0
    {
      if lines[i].key == MemTotalKey {
        memTotal := lines[i].value;
      } else if lines[i].key == MemAvailableKey {
        memAvailable := lines[i].value;
        break;
      }
      assert lines[..i + 1][..i] == lines[..i];
      i := i + 1;
    }

    if memTotal == 0 {
      return 0.0;
    }
    return 100.0 * (memTotal - memAvailable) as real / memTotal as real;
  }

  /** The first `MemAvailable:` line is at AvailableIndex(lines), if there is one at all. */
  lemma {:induction false} AvailableIndexSpec(lines: seq<Field>)
    ensures forall j :: 0 <= j < AvailableIndex(lines) ==> lines[j].key != MemAvailableKey
    ensures AvailableIndex(lines) < |lines| ==> lines[AvailableIndex(lines)].key == MemAvailableKey
  {
    if lines != [] && lines[0].key != MemAvailableKey {
      AvailableIndexSpec(lines[1..]);
      forall j | 0 <= j < AvailableIndex(lines)
        ensures lines[j].key != MemAvailableKey
      {
        if j > 0 {
          assert lines[j] == lines[1..][j - 1];
        }
      }
    }
  }

  /** Any index that holds a `MemAvailable:` line with none before it is the first one. */
  lemma {:induction false} AvailableIndexUnique(lines: seq<Field>, k: nat)
    requires k < |lines| && lines[k].key == MemAvailableKey
    requires forall j :: 0 <= j < k ==> lines[j].key != MemAvailableKey
    ensures AvailableIndex(lines) == k
  {
    if k > 0 {
      assert lines[0].key != MemAvailableKey;
      assert lines[1..][k - 1] == lines[k];
      assert forall j :: 0 <= j < k - 1 ==> lines[1..][j] == lines[j + 1];
      AvailableIndexUnique(lines[1..], k - 1);
    }
  }

  /**
   * The total used is the last `MemTotal:` line: any such line with no later `MemTotal:`
   * gives the total, and with no such line at all the total is 0.
   */
  lemma {:induction false} LastTotalIsLast(lines: seq<Field>)
    ensures (forall j :: 0 <= j < |lines| ==> lines[j].key != MemTotalKey) ==> LastTotal(lines) == 0
    ensures forall j :: 0 <= j < |lines| && lines[j].key == MemTotalKey &&
                        (forall l :: j < l < |lines| ==> lines[l].key != MemTotalKey)
                        ==> LastTotal(lines) == lines[j].value
  {
    if lines != [] {
      var init := lines[..|lines| - 1];
      LastTotalIsLast(init);
      assert forall j :: 0 <= j < |init| ==> init[j] == lines[j];
    }
  }

  /** The scan's total is the value of the last `MemTotal:` line before the first `MemAvailable:`. */
  lemma ScanTotalIsLastBeforeAvailable(lines: seq<Field>, j: nat)
    requires j < AvailableIndex(lines) && lines[j].key == MemTotalKey
    requires forall l :: j < l < AvailableIndex(lines) ==> lines[l].key != MemTotalKey
    ensures ScanMeminfo(lines).total == lines[j].value
  {
    var k := AvailableIndex(lines);
    AvailableIndexSpec(lines);
    LastTotalIsLast(lines[..k]);
    assert lines[..k][j] == lines[j];
    assert forall l :: j < l < k ==> lines[..k][l] == lines[l];
  }

  /** Without a `MemTotal:` line before the first `MemAvailable:` the total is 0. */
  lemma ScanTotalWithoutMemTotal(lines: seq<Field>)
    requires forall j :: 0 <= j < AvailableIndex(lines) ==> lines[j].key != MemTotalKey
    ensures ScanMeminfo(lines).total == 0
  {
    var k := AvailableIndex(lines);
    AvailableIndexSpec(lines);
    LastTotalIsLast(lines[..k]);
    assert forall j :: 0 <= j < k ==> lines[..k][j] == lines[j];
  }

  /** Nothing after the first `MemAvailable:` line matters, and its value is the available amount. */
  lemma ScanStopsAtAvailable(lines: seq<Field>, k: nat, rest: seq<Field>)
    requires k == AvailableIndex(lines) && k < |lines|
    ensures ScanMeminfo(lines).available == lines[k].value
    ensures ScanMeminfo(lines[..k + 1] + rest) == ScanMeminfo(lines)
  {
    var longer := lines[..k + 1] + rest;
    AvailableIndexSpec(lines);
    assert longer[k] == lines[k];
    forall j | 0 <= j < k
      ensures longer[j].key != MemAvailableKey
    {
      assert longer[j] == lines[j];
    }
    AvailableIndexUnique(longer, k);
    assert longer[..k] == lines[..k];
  }

  /** Without a `MemAvailable:` line the available amount stays 0, so a non-zero total reads as 100%. */
  lemma MissingAvailableReadsFull(lines: seq<Field>)
    requires forall j :: 0 <= j < |lines| ==> lines[j].key != MemAvailableKey
    ensures ScanMeminfo(lines).available == 0
    ensures ScanMeminfo(lines).total != 0 ==> MemPercent(ScanMeminfo(lines)) == 100.0
  {
    AvailableIndexSpec(lines);
    var m := ScanMeminfo(lines);
    assert AvailableIndex(lines) == |lines|;
    assert m.available == 0;
    if m.total != 0 {
      assert MemPercent(m) == 100.0 * m.total as real / m.total as real;
    }
  }

  /** With 0 <= available <= total the result is a percentage. */
  lemma MemPercentInRange(m: MemInfo)
    requires 0 <= m.available <= m.total
    ensures 0.0 <= MemPercent(m) <= 100.0
  {
  }

  lemma MemPercentExamples()
    ensures MemPercent(MemInfo(0, 0)) == 0.0
    ensures MemPercent(MemInfo(1000, 400)) == 60.0
  {
  }
}
