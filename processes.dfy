/**
 * Process enumeration: the entries of the `/proc` directory whose name starts with a digit
 * and whose `comm` file can be opened, each with its pid, its name and its resident memory.
 */
module Processes {
  import opened Common

  const VmRssKey := "VmRSS:"

  /**
   * One entry of the `/proc` directory listing: its name, the contents of its `comm` file
   * (None when the file cannot be opened) and the lines of its `status` file (None when
   * the file cannot be opened).
   */
  datatype DirEntry = DirEntry(name: string, comm: Option<string>, status: Option<seq<Field>>)

  /** One row of the process table; memory in MB. */
  datatype ProcessInfo = ProcessInfo(pid: int, name: string, cpuUsage: real, memUsage: real)

  predicate IsDigit(c: char)
  {
    '0' <= c <= '9'
  }

  /** The longest prefix of `s` made of decimal digits. */
  function DigitPrefix(s: string): (d: string)
    ensures d <= s
    ensures forall i :: 0 <= i < |d| ==> IsDigit(d[i])
    ensures |d| < |s| ==> !IsDigit(s[|d|])
  {
    if s == [] || !IsDigit(s[0]) then [] else [s[0]] + DigitPrefix(s[1..])
  }

  /** The number a string of decimal digits denotes. */
  function DigitsValue(d: string): nat
    requires forall i :: 0 <= i < |d| ==> IsDigit(d[i])
  {
    if d == [] then 0
    else
      assert IsDigit(d[|d| - 1]);
      10 * DigitsValue(d[..|d| - 1]) + (d[|d| - 1] as int - '0' as int)
  }

  /** `atoi` on a string that starts with a digit: the value of its leading digits. */
  function Atoi(s: string): nat
  {
    DigitsValue(DigitPrefix(s))
  }

  /** The decimal representation of `n`, without leading zeros. */
  function Decimal(n: nat): (d: string)
    ensures |d| > 0
    ensures forall i :: 0 <= i < |d| ==> IsDigit(d[i])
  {
    var last := ['0' + (n % 10) as char];
    if n < 10 then last else Decimal(n / 10) + last
  }

  /** Reading the pid back from a directory name that is a decimal number followed by non-digits. */
  lemma {:induction false} AtoiDecimal(n: nat, rest: string)
    requires rest == [] || !IsDigit(rest[0])
    ensures Atoi(Decimal(n) + rest) == n
  {
    DigitPrefixOfDigits(Decimal(n), rest);
    DigitsValueDecimal(n);
  }

  lemma {:induction false} DigitsValueDecimal(n: nat)
    ensures DigitsValue(Decimal(n)) == n
  {
    var d := Decimal(n);
    if n >= 10 {
      DigitsValueDecimal(n / 10);
      assert d[..|d| - 1] == Decimal(n / 10);
    }
  }

  /** A run of digits followed by a non-digit is exactly the digit prefix. */
  lemma {:induction false} DigitPrefixOfDigits(d: string, rest: string)
    requires forall i :: 0 <= i < |d| ==> IsDigit(d[i])
    requires rest == [] || !IsDigit(rest[0])
    ensures DigitPrefix(d + rest) == d
  {
    if d != [] {
      assert (d + rest)[1..] == d[1..] + rest;
      DigitPrefixOfDigits(d[1..], rest);
    } else {
      assert d + rest == rest;
    }
  }

  /** What `getline` reads: the text before the first newline. */
  function FirstLine(s: string): (line: string)
    ensures line <= s
    ensures '\n' !in line
    ensures |line| < |s| ==> s[|line|] == '\n'
  {
    if s == [] || s[0] == '\n' then [] else [s[0]] + FirstLine(s[1..])
  }

  /** The value of the first `VmRSS:` line, if any. */
  function FirstRss(lines: seq<Field>): (r: Option<int>)
    ensures r.None? <==> forall j :: 0 <= j < |lines| ==> lines[j].key != VmRssKey
    ensures r.Some? ==> exists j :: 0 <= j < |lines| && lines[j] == Field(VmRssKey, r.value) &&
                                    forall l :: 0 <= l < j ==> lines[l].key != VmRssKey
  {
    if lines == [] then None
    else if lines[0].key == VmRssKey then Some(lines[0].value)
    else
      var r := FirstRss(lines[1..]);
      assert forall j :: 1 <= j < |lines| ==> lines[j] == lines[1..][j - 1];
      r
  }

  /** Resident memory in MB: the first `VmRSS:` value (kB) divided by 1024, or 0. */
  function RssMegabytes(status: Option<seq<Field>>): real
  {
    if status.None? then 0.0
    else match FirstRss(status.value)
      case None => 0.0
      case Some(kb) => kb as real / 1024.0
  }

  /** The entries that yield a row: a name starting with a digit and a readable `comm`. */
  predicate Listed(e: DirEntry)
  {
    |e.name| > 0 && IsDigit(e.name[0]) && e.comm.Some?
  }

  /** The row for a listed entry; the CPU column is always 0. */
  function Describe(e: DirEntry): ProcessInfo
    requires Listed(e)
  {
    ProcessInfo(Atoi(e.name), FirstLine(e.comm.value), 0.0, RssMegabytes(e.status))
  }

  /** The process table for a directory listing, in listing order. */
  function ProcessTable(entries: seq<DirEntry>): (table: seq<ProcessInfo>)
    ensures |table| <= |entries|
    ensures forall i :: 0 <= i < |table| ==> table[i].cpuUsage == 0.0
  {
    if entries == [] then []
    else
      var e := entries[|entries| - 1];
      ProcessTable(entries[..|entries| - 1]) + if Listed(e) then [Describe(e)] else []
  }

  /** The inner scan of a `status` file: stops at the first `VmRSS:` line, skipping all others. */
  method ReadRss(status: Option<seq<Field>>) returns (memUsage: real)
    ensures memUsage == RssMegabytes(status)
  {
    memUsage := 0.0;
    if status.None? {
      return;
    }
    var lines := status.value;
    var i := 0;
    while i < |lines|
      invariant 0 <= i <= |lines|
      invariant FirstRss(lines) == FirstRss(lines[i..])
      invariant memUsage == 0.0
    {
      if lines[i].key == VmRssKey {
        memUsage := lines[i].value as real / 1024.0;
        break;
      }
      assert lines[i..][1..] == lines[i + 1..];
      i := i + 1;
    }
  }

  /** Walks the directory listing (None when `/proc` cannot be opened) and collects the rows. */
  method GetProcesses(dir: Option<seq<DirEntry>>) returns (processes: seq<ProcessInfo>)
    ensures dir.None? ==> processes == []
    ensures dir.Some? ==> processes == ProcessTable(dir.value)
  {
    processes := [];
    if dir.None? {
      return;
    }
    var entries := dir.value;
    var i := 0;
    while i < |entries|
      invariant 0 <= i <= |entries|
      invariant processes == ProcessTable(entries[..i])
    {
      var entry := entries[i];
      assert entries[..i + 1][..i] == entries[..i];
      i := i + 1;
      if !(|entry.name| > 0 && IsDigit(entry.name[0])) {
        continue;
      }
      var pid := Atoi(entry.name);
      if entry.comm.None? {
        continue;
      }
      var name := FirstLine(entry.comm.value);
      var memUsage := ReadRss(entry.status);
      processes := processes + [ProcessInfo(pid, name, 0.0, memUsage)];
    }
    assert entries[..i] == entries;
  }

  /** Listing two parts one after the other lists each part in turn: order is preserved. */
  lemma {:induction false} ProcessTableAppend(a: seq<DirEntry>, b: seq<DirEntry>)
    ensures ProcessTable(a + b) == ProcessTable(a) + ProcessTable(b)
  {
    if b == [] {
      assert a + b == a;
    } else {
      var b' := b[..|b| - 1];
      assert (a + b)[..|a + b| - 1] == a + b';
      ProcessTableAppend(a, b');
    }
  }

  /** A row is in the table exactly when some listed entry describes it. */
  lemma {:induction false} ProcessTableMembership(entries: seq<DirEntry>, p: ProcessInfo)
    ensures p in ProcessTable(entries) <==> exists e :: e in entries && Listed(e) && p == Describe(e)
  {
    if entries != [] {
      var init := entries[..|entries| - 1];
      var e := entries[|entries| - 1];
      ProcessTableMembership(init, p);
      assert entries == init + [e];
      if p in ProcessTable(entries) && p !in ProcessTable(init) {
        assert Listed(e) && p == Describe(e);
      }
      if e' :| e' in entries && Listed(e') && p == Describe(e') {
        if e' != e {
          assert e' in init;
        }
      }
    }
  }

  /** Entries that vanished before their `comm` could be read are skipped, and nothing else changes. */
  lemma SkipsVanishedEntry(a: DirEntry, gone: DirEntry, c: DirEntry)
    requires Listed(a) && Listed(c)
    requires gone.comm.None?
    ensures ProcessTable([a, gone, c]) == [Describe(a), Describe(c)]
  {
    ProcessTableAppend([a], [gone, c]);
    ProcessTableAppend([gone], [c]);
    assert [a, gone, c] == [a] + [gone, c];
    assert [gone, c] == [gone] + [c];
  }
}
