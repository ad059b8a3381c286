/** Configuration text: trimming, splitting a path at its last slash, and the two
    paths the proxy builds. C strings are byte buffers read up to the first NUL. */
module Text {
  import opened Ledger

  const NUL: byte := 0
  const LF: byte := 0x0A
  const CR: byte := 0x0D
  const SP: byte := 0x20
  const SLASH: byte := 0x2F

  const PATH_SIZE: nat := 160
  const NAME_SIZE: nat := 80
  const JOIN_SIZE: nat := 256
  const SUN_PATH_SIZE: nat := 108 // the path of a UNIX domain socket address, on Linux

  /** The characters these bytes are. */
  lemma Characters()
    ensures SLASH as char == '/' && SP as char == ' ' && LF as char == '\n' && CR as char == '\r'
    ensures NUL as char == '\0'
  {
  }

  /** strlen, bounded by the buffer. */
  function StrLen(s: seq<byte>): (n: nat)
    ensures n <= |s|
    ensures forall k :: 0 <= k < n ==> s[k] != NUL
    ensures n < |s| ==> s[n] == NUL
  {
    if s == [] || s[0] == NUL then 0 else 1 + StrLen(s[1..])
  }

  function CStr(s: seq<byte>): (t: seq<byte>)
    ensures NUL !in t && t <= s
  {
    s[..StrLen(s)]
  }

  lemma CStrOf(t: seq<byte>, s: seq<byte>)
    requires NUL !in t && t <= s && (|t| == |s| || s[|t|] == NUL)
    ensures CStr(s) == t
  {
  }

  // ----- Trimming -----

  predicate IsBlank(b: byte) { b == LF || b == CR || b == SP }

  predicate IsBreak(b: byte) { b == LF || b == CR }

  function BlankPrefix(t: seq<byte>): (n: nat)
    ensures n <= |t|
    ensures forall k :: 0 <= k < n ==> IsBlank(t[k])
    ensures n < |t| ==> !IsBlank(t[n])
  {
    if t == [] || !IsBlank(t[0]) then 0 else 1 + BlankPrefix(t[1..])
  }

  function LineLen(t: seq<byte>): (n: nat)
    ensures n <= |t|
    ensures forall k :: 0 <= k < n ==> !IsBreak(t[k])
    ensures n < |t| ==> IsBreak(t[n])
  {
    if t == [] || IsBreak(t[0]) then 0 else 1 + LineLen(t[1..])
  }

  function Trim(t: seq<byte>): (m: seq<byte>) {
    var d := t[BlankPrefix(t)..];
    d[..LineLen(d)]
  }

  /** m is what is left of t between leading blanks and the first line break after them. */
  ghost predicate TrimmedFrom(t: seq<byte>, m: seq<byte>, before: seq<byte>, after: seq<byte>) {
    && t == before + m + after
    && (forall k :: 0 <= k < |before| ==> before[k] == 0x0A || before[k] == 0x0D || before[k] == 0x20)
    && (forall k :: 0 <= k < |m| ==> m[k] != 0x0A && m[k] != 0x0D)
    && (if m == [] then after == []
        else m[0] != 0x20 && (after == [] || after[0] == 0x0A || after[0] == 0x0D))
  }

  /** What is left behind the leading blanks is cut at its first line break. */
  lemma LineIsCut(d: seq<byte>) returns (m: seq<byte>, after: seq<byte>)
    requires d == [] || !IsBlank(d[0])
    ensures m == d[..LineLen(d)] && d == m + after
    ensures forall k :: 0 <= k < |m| ==> m[k] != 0x0A && m[k] != 0x0D
    ensures if m == [] then after == []
            else m[0] != 0x20 && (after == [] || after[0] == 0x0A || after[0] == 0x0D)
  {
    var n := LineLen(d);
    m, after := d[..n], d[n..];
    if d != [] {
      assert n > 0 && m[0] == d[0];
      assert n < |d| ==> after[0] == d[n];
    }
  }

  lemma BlanksAreCut(t: seq<byte>) returns (before: seq<byte>, d: seq<byte>)
    ensures t == before + d && Trim(t) == d[..LineLen(d)]
    ensures forall k :: 0 <= k < |before| ==> before[k] == 0x0A || before[k] == 0x0D || before[k] == 0x20
    ensures d == [] || !IsBlank(d[0])
  {
    var n := BlankPrefix(t);
    before, d := t[..n], t[n..];
    assert n < |t| ==> d[0] == t[n];
  }

  lemma Regroup(a: seq<byte>, b: seq<byte>, c: seq<byte>)
    ensures a + (b + c) == a + b + c
  {
  }

  lemma TrimIsCut(t: seq<byte>) returns (before: seq<byte>, after: seq<byte>)
    ensures TrimmedFrom(t, Trim(t), before, after)
  {
    var d, m;
    before, d := BlanksAreCut(t);
    m, after := LineIsCut(d);
    Regroup(before, m, after);
  }

  lemma CutIsTrim(t: seq<byte>, m: seq<byte>, before: seq<byte>, after: seq<byte>)
    requires TrimmedFrom(t, m, before, after)
    ensures m == Trim(t)
  {
    var n := BlankPrefix(t);
    if m == [] {
      assert n == |t|;
    } else {
      assert t[|before|] == m[0];
      assert n == |before|;
      var d := t[n..];
      assert d == m + after;
      assert after != [] ==> d[|m|] == after[0];
      assert LineLen(d) == |m|;
    }
  }

  /** Trim is the only such cut. */
  lemma TrimExact(t: seq<byte>, m: seq<byte>)
    ensures m == Trim(t) <==> exists before, after :: TrimmedFrom(t, m, before, after)
  {
    var before, after := TrimIsCut(t);
    if b, a :| TrimmedFrom(t, m, b, a) {
      CutIsTrim(t, m, b, a);
    }
  }

  lemma TrimIdempotent(t: seq<byte>)
    ensures Trim(Trim(t)) == Trim(t)
  {
    var before, after := TrimIsCut(t);
    CutIsTrim(Trim(t), Trim(t), [], []);
  }

  /** `removeSpace`: trims the string in the buffer and returns where it starts.
      Both loops take the string's length again on every round. */
  method RemoveSpace(a: array<byte>) returns (out: nat)
    requires NUL in a[..]
    modifies a
    ensures out <= a.Length && NUL in a[out..]
    ensures CStr(a[out..]) == Trim(CStr(old(a[..])))
  {
    out := SkipBlanks(a);
    CutAtBreak(a, out);
  }

  method SkipBlanks(a: array<byte>) returns (out: nat)
    requires NUL in a[..]
    ensures out == BlankPrefix(CStr(a[..])) && out <= a.Length
    ensures CStr(a[out..]) == CStr(a[..])[out..] && NUL in a[out..]
  {
    ghost var t := CStr(a[..]);
    out := 0;
    var i := 0;
    while i < StrLen(a[..])
      invariant out == i <= |t|
      invariant forall k :: 0 <= k < i ==> IsBlank(t[k])
    {
      if a[out] != LF && a[out] != CR && a[out] != SP {
        break;
      }
      out := out + 1;
      i := i + 1;
    }
    assert BlankPrefix(t) == out;
    Terminated(a[..], out);
    CStrOf(t[out..], a[out..]);
  }

  /** A string's terminator is still there behind any of its bytes. */
  lemma Terminated(s: seq<byte>, from: nat)
    requires NUL in s && from <= StrLen(s)
    ensures StrLen(s) < |s| && s[from..][StrLen(s) - from] == NUL && NUL in s[from..]
  {
    assert StrLen(s) < |s|;
    assert s[from..][StrLen(s) - from] == NUL;
  }

  method CutAtBreak(a: array<byte>, out: nat)
    requires out <= a.Length && NUL in a[out..]
    modifies a
    ensures NUL in a[out..]
    ensures var d := old(CStr(a[out..])); CStr(a[out..]) == d[..LineLen(d)]
  {
    ghost var d := CStr(a[out..]);
    var i := 0;
    while i < StrLen(a[out..])
      invariant i <= |d| && a[..] == old(a[..])
      invariant forall k :: 0 <= k < i ==> !IsBreak(d[k])
    {
      assert a[out..] == old(a[..])[out..];
      if a[out + i] == LF || a[out + i] == CR {
        assert IsBreak(d[i]) && LineLen(d) == i;
        a[out + i] := NUL;
        assert a[out..][i] == NUL;
        CStrOf(d[..i], a[out..]);
        return;
      }
      i := i + 1;
    }
    assert a[out..] == old(a[..])[out..];
    assert LineLen(d) == |d|;
  }

  // ----- Splitting a path and joining it again -----

  /** The position of the last slash, or -1. */
  function LastSlash(t: seq<byte>): (n: int)
    ensures -1 <= n < |t|
    ensures n >= 0 ==> t[n] == SLASH
    ensures forall k :: n < k < |t| ==> t[k] != SLASH
  {
    if t == [] then -1
    else if t[|t| - 1] == SLASH then |t| - 1
    else LastSlash(t[..|t| - 1])
  }

  function AtMost(t: seq<byte>, n: nat): (r: seq<byte>) {
    if |t| <= n then t else t[..n]
  }

  /** The path and the name a pipe text is split into; cwd is what getcwd stores,
      None when it fails. */
  function Split(t: seq<byte>, cwd: Option<seq<byte>>): (r: (seq<byte>, seq<byte>)) {
    var n := LastSlash(t);
    if n >= 0 then (t[..n], t[n + 1..])
    else (if cwd.Some? then cwd.value else t, AtMost(t, NAME_SIZE - 1))
  }

  /** The proxy's "%s/%s". */
  function Join(path: seq<byte>, name: seq<byte>): (r: seq<byte>) {
    path + [SLASH] + name
  }

  /** The text fits the two fields, so that the copying loops, which do not look at
      their size, stay inside and leave both terminated. */
  predicate Fits(t: seq<byte>, cwd: Option<seq<byte>>) {
    && |t| <= PATH_SIZE
    && if LastSlash(t) >= 0 then |t| - LastSlash(t) - 1 < NAME_SIZE
       else cwd.None? ==> |t| < PATH_SIZE
  }

  /** getcwd is given room for 158 bytes and a NUL. */
  predicate CwdOk(cwd: Option<seq<byte>>) {
    cwd.Some? ==> |cwd.value| < PATH_SIZE - 1 && NUL !in cwd.value
  }

  lemma SplitJoin(t: seq<byte>, cwd: Option<seq<byte>>)
    requires SLASH in t
    ensures var (path, name) := Split(t, cwd);
            Join(path, name) == t && SLASH !in name
  {
    var n := LastSlash(t);
    assert n >= 0 && t == t[..n] + [t[n]] + t[n + 1..];
  }

  lemma LastSlashJoin(path: seq<byte>, name: seq<byte>)
    requires SLASH !in name
    ensures LastSlash(Join(path, name)) == |path|
  {
    var t := Join(path, name);
    assert t[|path|] == SLASH;
    assert forall k :: |path| < k < |t| ==> t[k] == name[k - |path| - 1];
  }

  /** The other way round: any path and any slash-free name come back. */
  lemma JoinSplit(path: seq<byte>, name: seq<byte>, cwd: Option<seq<byte>>)
    requires SLASH !in name
    ensures Split(Join(path, name), cwd) == (path, name)
  {
    var t := Join(path, name);
    LastSlashJoin(path, name);
    assert t[..|path|] == path && t[|path| + 1..] == name;
  }

  /** Which joined texts fit: the name must fit its field and the whole text the path's. */
  lemma JoinFitsExact(path: seq<byte>, name: seq<byte>, cwd: Option<seq<byte>>)
    requires SLASH !in name
    ensures Fits(Join(path, name), cwd) <==> |name| < 80 && |path| + 1 + |name| <= 160
  {
    LastSlashJoin(path, name);
  }

  /** A name of 80 bytes in the root directory goes past its field. */
  lemma LongNameDoesNotFit(cwd: Option<seq<byte>>) returns (t: seq<byte>)
    ensures SLASH in t && |t| == NAME_SIZE + 1 && !Fits(t, cwd)
  {
    var name: seq<byte> := seq(NAME_SIZE, _ => 0x61);
    t := Join([], name);
    assert t[0] == SLASH;
    JoinFitsExact([], name, cwd);
  }

  /** In every case the joined path and its NUL fit the proxy's buffer. */
  lemma JoinFits(t: seq<byte>, cwd: Option<seq<byte>>)
    requires Fits(t, cwd) && CwdOk(cwd)
    ensures var (path, name) := Split(t, cwd);
            |path| < 160 && |name| < 80 && |Join(path, name)| + 1 <= 256
  {
    var (path, name) := Split(t, cwd);
    var n := LastSlash(t);
    if n >= 0 {
      assert |t[..n]| == n && |t[n + 1..]| == |t| - n - 1;
    } else {
      assert |AtMost(t, NAME_SIZE - 1)| < NAME_SIZE;
    }
    assert |path + [SLASH] + name| == |path| + 1 + |name|;
  }

  // ----- The address of the pipe's server -----

  /** Which texts with a slash have a joined path that fits a socket address. */
  lemma SunPathExact(t: seq<byte>, cwd: Option<seq<byte>>)
    requires SLASH in t
    ensures var (path, name) := Split(t, cwd);
            |Join(path, name)| < 108 <==> |t| < 108
  {
    SplitJoin(t, cwd);
  }

  /** A text can fit the mapping's fields and not the socket address. */
  lemma FittingTextTooLong(cwd: Option<seq<byte>>) returns (t: seq<byte>)
    ensures SLASH in t && Fits(t, cwd)
    ensures var (path, name) := Split(t, cwd); |Join(path, name)| >= SUN_PATH_SIZE
  {
    var path: seq<byte> := seq(100, _ => 0x61);
    var name: seq<byte> := seq(50, _ => 0x62);
    t := Join(path, name);
    assert t[100] == SLASH;
    JoinFitsExact(path, name, cwd);
    JoinSplit(path, name, cwd);
  }

  /** The proxy's "%s/%s" and the library's copy of it into the address. inside is
      false when the copy gets to a byte past the field: the model stops there. */
  method CopyAddress(path: seq<byte>, name: seq<byte>, sunPath: array<byte>) returns (inside: bool)
    requires NUL !in path && NUL !in name && sunPath.Length == SUN_PATH_SIZE
    modifies sunPath
    ensures inside <==> |Join(path, name)| < 108
    ensures inside ==> CStr(sunPath[..]) == Join(path, name) && NUL in sunPath[..]
  {
    var text := path + [SLASH] + name;
    assert NUL !in text;
    var i := 0;
    while i < |text|
      invariant 0 <= i <= |text| && i <= sunPath.Length
      invariant forall k :: 0 <= k < i ==> sunPath[k] == text[k]
    {
      if i >= sunPath.Length {
        return false;
      }
      sunPath[i] := text[i];
      i := i + 1;
    }
    if i >= sunPath.Length {
      return false;
    }
    sunPath[i] := NUL;
    CopyEnds(text, 0, sunPath[..]);
    return true;
  }

  // ----- The splitting code -----

  /** `decomposePathName` on the string at pIn[off..]; the two fields start zeroed.
      inside is false when a loop gets to a byte past its field: the C program would
      write there, the model stops. Both fields hold a terminated string and
      nothing else was written exactly when the text fits. */
  method DecomposePathName(pIn: array<byte>, off: nat, pPath: array<byte>, pName: array<byte>,
                           cwd: Option<seq<byte>>) returns (inside: bool)
    requires off <= pIn.Length && NUL in pIn[off..]
    requires pPath.Length == PATH_SIZE && pName.Length == NAME_SIZE
    requires pPath != pName && pPath != pIn && pName != pIn
    requires forall k :: 0 <= k < PATH_SIZE ==> pPath[k] == NUL
    requires forall k :: 0 <= k < NAME_SIZE ==> pName[k] == NUL
    requires CwdOk(cwd)
    modifies pPath, pName
    ensures inside && NUL in pPath[..] && NUL in pName[..] <==> Fits(CStr(pIn[off..]), cwd)
    ensures inside ==> (CStr(pPath[..]), CStr(pName[..])) == Split(CStr(pIn[off..]), cwd)
  {
    ghost var t := CStr(pIn[off..]);
    var target;
    target, inside := CopyPath(pIn, off, pPath);
    if !inside {
      return;
    }
    if target >= 0 {
      EndPath(pPath, target, t);
      inside := CopyName(pIn, off, target + 1, pName);
    } else {
      GetCwd(pPath, cwd, t);
      CopyBounded(pIn, off, pName);
    }
  }

  /** The NUL over the last slash. */
  method EndPath(pPath: array<byte>, target: nat, ghost t: seq<byte>)
    requires target < |t| <= pPath.Length && NUL !in t && pPath[..|t|] == t
    modifies pPath
    ensures CStr(pPath[..]) == t[..target] && NUL in pPath[..]
  {
    pPath[target] := NUL;
    assert pPath[..][target] == NUL;
    CStrOf(t[..target], pPath[..]);
  }

  /** The path loop: copies every byte and remembers the last slash. */
  method CopyPath(pIn: array<byte>, off: nat, pPath: array<byte>)
    returns (target: int, inside: bool)
    requires off <= pIn.Length && pPath != pIn
    modifies pPath
    ensures inside <==> StrLen(pIn[off..]) <= pPath.Length
    ensures inside ==> target == LastSlash(CStr(pIn[off..]))
    ensures inside ==> pPath[..] == CStr(pIn[off..]) + old(pPath[..])[StrLen(pIn[off..])..]
  {
    ghost var t := CStr(pIn[off..]);
    target, inside := -1, true;
    var i := 0;
    while i < StrLen(pIn[off..])
      invariant 0 <= i <= |t| && i <= pPath.Length
      invariant -1 <= target < i && (target >= 0 ==> t[target] == SLASH)
      invariant forall k :: target < k < i ==> t[k] != SLASH
      invariant forall k :: 0 <= k < i ==> pPath[k] == t[k]
      invariant forall k :: i <= k < pPath.Length ==> pPath[k] == old(pPath[k])
    {
      if pIn[off + i] == SLASH {
        target := i;
      }
      if i >= pPath.Length {
        return target, false;
      }
      pPath[i] := pIn[off + i];
      i := i + 1;
    }
  }

  /** A field that holds the string from some byte on, and a NUL. */
  lemma CopyEnds(t: seq<byte>, from: nat, field: seq<byte>)
    requires NUL !in t && from <= |t| && |t| - from < |field|
    requires forall k :: 0 <= k < |t| - from ==> field[k] == t[from + k]
    requires field[|t| - from] == NUL
    ensures CStr(field) == t[from..] && NUL in field
  {
    var rest := t[from..];
    assert rest == field[..|rest|];
    CStrOf(rest, field);
  }

  /** The name loop: everything from j to the end of the string, and a NUL. */
  method CopyName(pIn: array<byte>, off: nat, from: nat, pName: array<byte>) returns (inside: bool)
    requires off <= pIn.Length && pName != pIn && from <= StrLen(pIn[off..])
    modifies pName
    ensures inside <==> StrLen(pIn[off..]) - from < pName.Length
    ensures inside ==> CStr(pName[..]) == CStr(pIn[off..])[from..] && NUL in pName[..]
  {
    ghost var t := CStr(pIn[off..]);
    var i, j := 0, from;
    while j < StrLen(pIn[off..])
      invariant j == from + i <= |t| && i <= pName.Length
      invariant forall k :: 0 <= k < i ==> pName[k] == t[from + k]
    {
      if i >= pName.Length {
        return false;
      }
      pName[i] := pIn[off + j];
      i, j := i + 1, j + 1;
    }
    if i >= pName.Length {
      return false;
    }
    pName[i] := NUL;
    CopyEnds(t, from, pName[..]);
    return true;
  }

  /** getcwd: stores the directory and a NUL, or fails and leaves the buffer alone. */
  method GetCwd(pPath: array<byte>, cwd: Option<seq<byte>>, ghost t: seq<byte>)
    requires pPath.Length == PATH_SIZE && CwdOk(cwd) && |t| <= PATH_SIZE && NUL !in t
    requires pPath[..|t|] == t && forall k :: |t| <= k < PATH_SIZE ==> pPath[k] == NUL
    modifies pPath
    ensures CStr(pPath[..]) == if cwd.Some? then cwd.value else t
    ensures NUL in pPath[..] <==> cwd.Some? || |t| < PATH_SIZE
  {
    if cwd.Some? {
      var c := cwd.value;
      forall k | 0 <= k < |c| {
        pPath[k] := c[k];
      }
      pPath[|c|] := NUL;
      assert pPath[..][|c|] == NUL;
      CStrOf(c, pPath[..]);
    } else {
      assert |t| < PATH_SIZE ==> pPath[..][|t|] == NUL;
      CStrOf(t, pPath[..]);
    }
  }

  /** strncpy of at most 79 bytes into a zeroed field. */
  method CopyBounded(pIn: array<byte>, off: nat, pName: array<byte>)
    requires off <= pIn.Length && pName != pIn && pName.Length == NAME_SIZE
    requires forall k :: 0 <= k < NAME_SIZE ==> pName[k] == NUL
    modifies pName
    ensures CStr(pName[..]) == AtMost(CStr(pIn[off..]), NAME_SIZE - 1) && NUL in pName[..]
  {
    ghost var t := CStr(pIn[off..]);
    var n := StrLen(pIn[off..]);
    var i := 0;
    while i < NAME_SIZE - 1 && i < n
      invariant 0 <= i <= n && i <= NAME_SIZE - 1
      invariant forall k :: 0 <= k < i ==> pName[k] == t[k]
      invariant forall k :: i <= k < NAME_SIZE ==> pName[k] == NUL
    {
      pName[i] := pIn[off + i];
      i := i + 1;
    }
    assert pName[..][NAME_SIZE - 1] == NUL;
    CStrOf(AtMost(t, NAME_SIZE - 1), pName[..]);
  }

  // ----- The client socket path of a mapping -----

  /** "%d" of a natural number. */
  function Decimal(n: nat): (r: seq<byte>)
    ensures |r| > 0
  {
    (if n < 10 then [] else Decimal(n / 10)) + [0x30 + n % 10]
  }

  lemma {:induction false} DecimalInjective(m: nat, n: nat)
    requires Decimal(m) == Decimal(n)
    ensures m == n
  {
    var a, b := Decimal(m), Decimal(n);
    assert a[|a| - 1] == b[|b| - 1];
    if m >= 10 && n >= 10 {
      assert a[..|a| - 1] == Decimal(m / 10) && b[..|b| - 1] == Decimal(n / 10);
      DecimalInjective(m / 10, n / 10);
    }
  }

  /** The number a string of digits stands for. */
  function Value(digits: seq<byte>): (n: int) {
    if digits == [] then 0 else 10 * Value(digits[..|digits| - 1]) + digits[|digits| - 1] - 0x30
  }

  lemma ValueSnoc(digits: seq<byte>, d: byte)
    ensures Value(digits + [d]) == 10 * Value(digits) + d - 0x30
  {
    assert (digits + [d])[..|digits|] == digits;
  }

  lemma DecimalSnoc(m: nat, d: nat)
    requires m > 0 && d < 10
    ensures Decimal(10 * m + d) == Decimal(m) + [0x30 + d]
  {
    var n := 10 * m + d;
    assert n >= 10 && n / 10 == m && n % 10 == d;
  }

  lemma OneDigit(d: nat)
    requires d < 10
    ensures Decimal(d) == [0x30 + d] && Value([0x30 + d]) == d
  {
    assert Decimal(d) == [] + [0x30 + d];
    ValueSnoc([], 0x30 + d);
  }

  lemma ValueStep(m: nat, d: nat)
    requires m > 0 && d < 10 && Value(Decimal(m)) == m
    ensures Value(Decimal(10 * m + d)) == 10 * m + d
  {
    DecimalSnoc(m, d);
    ValueSnoc(Decimal(m), 0x30 + d);
  }

  /** They read back as the number. */
  lemma {:induction false} DecimalValue(n: nat)
    ensures Value(Decimal(n)) == n
  {
    var m, d := n / 10, n % 10;
    assert n == 10 * m + d;
    if m == 0 {
      OneDigit(d);
    } else {
      DecimalValue(m);
      ValueStep(m, d);
    }
  }

  /** They are digits, without a leading zero. */
  lemma {:induction false} DecimalDigits(n: nat)
    ensures forall k :: 0 <= k < |Decimal(n)| ==> 0x30 <= Decimal(n)[k] <= 0x39
    ensures n > 0 ==> Decimal(n)[0] != 0x30
  {
    var m, d := n / 10, n % 10;
    assert n == 10 * m + d;
    if m == 0 {
      OneDigit(d);
    } else {
      DecimalDigits(m);
      DecimalSnoc(m, d);
    }
  }

  function ClientPath(base: seq<byte>, index: nat): (r: seq<byte>) {
    base + Decimal(index)
  }

  /** The path is the base and then the index in digits. */
  lemma ClientPathReads(base: seq<byte>, index: nat)
    ensures var p := ClientPath(base, index);
            |p| > |base| && p[..|base|] == base && Value(p[|base|..]) == index
  {
    var p := ClientPath(base, index);
    assert p[|base|..] == Decimal(index);
    DecimalValue(index);
  }

  /** No two mappings bind the same client socket. */
  lemma ClientPathsDistinct(base: seq<byte>, i: nat, j: nat)
    requires i != j
    ensures ClientPath(base, i) != ClientPath(base, j)
  {
    if ClientPath(base, i) == ClientPath(base, j) {
      assert ClientPath(base, i)[|base|..] == Decimal(i);
      assert ClientPath(base, j)[|base|..] == Decimal(j);
      DecimalInjective(i, j);
      assert false;
    }
  }
}
