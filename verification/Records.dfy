/** The packed event records the monitor reads: a 16-byte head whose last four
    bytes hold the length of the name field that follows. */
module Records {
  import opened Ledger
  import opened Text

  const EVENT_SIZE: nat := 16

  datatype Record = Record(head: seq<byte>, field: seq<byte>)

  predicate Packable(r: Record) {
    |r.head| == 12 && |r.field| < 0x1_0000_0000
  }

  function U32(n: nat): (b: seq<byte>)
    requires n < 0x1_0000_0000
    ensures |b| == 4
  {
    [n % 0x100, n / 0x100 % 0x100, n / 0x100 / 0x100 % 0x100, n / 0x100 / 0x100 / 0x100]
  }

  function ReadU32(b: seq<byte>): (n: nat)
    requires |b| == 4
    ensures n < 0x1_0000_0000
  {
    var b0: int, b1: int, b2: int, b3: int := b[0], b[1], b[2], b[3];
    b0 + 0x100 * (b1 + 0x100 * (b2 + 0x100 * b3))
  }

  /** The first byte is the lowest, as on the machines the service runs on. */
  lemma LowFirst(b: seq<byte>)
    requires |b| == 4
    ensures ReadU32(b) ==
            (b[0] as int) + 0x100 * (b[1] as int) + 0x1_0000 * (b[2] as int) + 0x100_0000 * (b[3] as int)
  {
  }

  lemma U32Read(n: nat)
    requires n < 0x1_0000_0000
    ensures ReadU32(U32(n)) == n
  {
  }

  /** One base-256 digit off a number. */
  lemma Digit(low: byte, high: nat)
    ensures (low + 0x100 * high) % 0x100 == low && (low + 0x100 * high) / 0x100 == high
  {
  }

  lemma ReadU32Exact(b: seq<byte>)
    requires |b| == 4
    ensures U32(ReadU32(b)) == b
  {
    var n2: nat := b[2] + 0x100 * (b[3] as int);
    var n1: nat := b[1] + 0x100 * n2;
    Digit(b[2], b[3]);
    Digit(b[1], n2);
    Digit(b[0], n1);
    assert ReadU32(b) == b[0] + 0x100 * n1;
  }

  function Pack(r: Record): (b: seq<byte>)
    requires Packable(r)
    ensures |b| == EVENT_SIZE + |r.field|
  {
    r.head + U32(|r.field|) + r.field
  }

  function PackAll(rs: seq<Record>): (b: seq<byte>)
    requires forall r :: r in rs ==> Packable(r)
  {
    if rs == [] then [] else Pack(rs[0]) + PackAll(rs[1..])
  }

  /** Reading whole records off a byte string; None when the last is cut short. */
  function Decode(b: seq<byte>): (rs: Option<seq<Record>>)
    ensures rs.Some? ==> forall r :: r in rs.value ==> Packable(r)
    decreases |b|
  {
    if b == [] then Some([])
    else if |b| < EVENT_SIZE then None
    else
      var n := ReadU32(b[12..16]);
      if |b| < EVENT_SIZE + n then None
      else
        match Decode(b[EVENT_SIZE + n..])
        case None => None
        case Some(rest) => Some([Record(b[..12], b[EVENT_SIZE..EVENT_SIZE + n])] + rest)
  }

  /** The first record of a byte string that starts with one. */
  lemma PackParts(r: Record, rest: seq<byte>)
    requires Packable(r)
    ensures var b := Pack(r) + rest;
            && |b| >= EVENT_SIZE + |r.field| && ReadU32(b[12..16]) == |r.field|
            && b[..12] == r.head && b[16..16 + |r.field|] == r.field && b[16 + |r.field|..] == rest
  {
    U32Read(|r.field|);
    var b := r.head + U32(|r.field|) + r.field + rest;
    assert b[12..16] == U32(|r.field|);
  }

  lemma {:induction false} DecodePacked(rs: seq<Record>)
    requires forall r :: r in rs ==> Packable(r)
    ensures Decode(PackAll(rs)) == Some(rs)
  {
    if rs != [] {
      assert rs[0] in rs;
      PackParts(rs[0], PackAll(rs[1..]));
      DecodePacked(rs[1..]);
      assert [rs[0]] + rs[1..] == rs;
    }
  }

  lemma Cut(b: seq<byte>, i: nat, j: nat, k: nat)
    requires i <= j <= k <= |b|
    ensures b[..i] + b[i..j] + b[j..k] + b[k..] == b
  {
    assert b[..i] + b[i..j] == b[..j];
    assert b[..j] + b[j..k] == b[..k];
  }

  lemma {:induction false} PackDecoded(b: seq<byte>)
    requires Decode(b).Some?
    ensures PackAll(Decode(b).value) == b
    decreases |b|
  {
    if b != [] {
      var n := ReadU32(b[12..16]);
      var r := Record(b[..12], b[16..16 + n]);
      var rest := b[16 + n..];
      ReadU32Exact(b[12..16]);
      PackDecoded(rest);
      assert Decode(b).value == [r] + Decode(rest).value;
      assert ([r] + Decode(rest).value)[1..] == Decode(rest).value;
      Cut(b, 12, 16, 16 + n);
      assert Pack(r) == b[..12] + b[12..16] + b[16..16 + n];
    }
  }

  /** Decoding undoes packing, and only packed records decode. */
  lemma DecodeExact(b: seq<byte>, rs: seq<Record>)
    requires forall r :: r in rs ==> Packable(r)
    ensures Decode(b) == Some(rs) <==> b == PackAll(rs)
  {
    DecodePacked(rs);
    if Decode(b) == Some(rs) {
      PackDecoded(b);
    }
  }

  /** What strcmp reads as each record's name: the bytes from its field on, up to
      the first NUL, wherever that is; tail is the buffer behind the records. */
  function SeenNames(rs: seq<Record>, tail: seq<byte>): (names: seq<seq<byte>>)
    requires forall r :: r in rs ==> Packable(r)
    ensures |names| == |rs|
  {
    if rs == [] then []
    else [CStr(rs[0].field + PackAll(rs[1..]) + tail)] + SeenNames(rs[1..], tail)
  }

  /** A record's name is read the same whatever follows it exactly when its own
      field holds a NUL. */
  lemma OwnNameExact(field: seq<byte>)
    ensures NUL in field <==> forall rest: seq<byte> :: CStr(field + rest) == CStr(field)
  {
    if NUL in field {
      forall rest: seq<byte>
        ensures CStr(field + rest) == CStr(field)
      {
        var k :| 0 <= k < |field| && field[k] == NUL;
        CStrOf(CStr(field), field + rest);
      }
    } else {
      CStrOf(field, field);
      CStrOf(field + [1], field + [1]);
      assert CStr(field + [1]) != CStr(field);
    }
  }

  /** The same for one given continuation: the bytes right behind the field. */
  lemma NameBeforeExact(field: seq<byte>, rest: seq<byte>)
    ensures CStr(field + rest) == CStr(field) <==> NUL in field || rest == [] || rest[0] == NUL
  {
    if NUL in field {
      OwnNameExact(field);
    } else {
      CStrOf(field, field);
      if rest == [] || rest[0] == NUL {
        CStrOf(field, field + rest);
      } else {
        assert (field + rest)[|field|] == rest[0];
        assert CStr(field + rest) == field ==> StrLen(field + rest) == |field|;
      }
    }
  }

  /** In a buffer: which records the monitor matches by their own names. */
  lemma {:induction false} OwnNamesExact(rs: seq<Record>, tail: seq<byte>, k: nat)
    requires (forall r :: r in rs ==> Packable(r)) && k < |rs|
    ensures var behind := PackAll(rs[k + 1..]) + tail;
            SeenNames(rs, tail)[k] == CStr(rs[k].field) <==>
            NUL in rs[k].field || behind == [] || behind[0] == NUL
    decreases k
  {
    if k == 0 {
      var behind := PackAll(rs[1..]) + tail;
      assert rs[0].field + PackAll(rs[1..]) + tail == rs[0].field + behind;
      NameBeforeExact(rs[0].field, behind);
    } else {
      OwnNamesExact(rs[1..], tail, k - 1);
      assert rs[1..][k..] == rs[k + 1..];
    }
  }

  /** The monitor reads the name of a record without one off the record behind it. */
  lemma NamelessReadsNext(head: seq<byte>, next: Record, tail: seq<byte>)
    requires |head| == 12 && Packable(next)
    ensures SeenNames([Record(head, []), next], tail)[0] == CStr(Pack(next) + tail)
  {
    var rs := [Record(head, []), next];
    assert rs[1..] == [next] && [next][1..] == [];
    assert PackAll(rs[1..]) == Pack(next);
    assert [] + PackAll(rs[1..]) + tail == Pack(next) + tail;
  }

  /** Such a record before one whose watch descriptor is b, 1 to 255: the monitor
      compares the one-byte name b, say "1" for watch descriptor 49. */
  lemma NamelessSeesWatch(head: seq<byte>, next: Record, b: byte) returns (rs: seq<Record>)
    requires |head| == 12 && Packable(next) && next.head[..2] == [b, NUL] && b != NUL
    ensures (forall r :: r in rs ==> Packable(r)) && Decode(PackAll(rs)) == Some(rs)
    ensures |rs| == 2 && rs[0].field == [] && SeenNames(rs, [])[0] == [b] != CStr(rs[0].field)
  {
    rs := [Record(head, []), next];
    DecodePacked(rs);
    NamelessReadsNext(head, next, []);
    var behind := Pack(next) + [];
    assert behind[0] == next.head[..2][0] && behind[1] == next.head[..2][1];
    assert [b] <= behind;
    CStrOf([b], behind);
  }

  /** With NUL-terminated fields every record is matched by its own name. */
  lemma {:induction false} OwnNames(rs: seq<Record>, tail: seq<byte>)
    requires forall r :: r in rs ==> Packable(r) && NUL in r.field
    ensures forall k :: 0 <= k < |rs| ==> SeenNames(rs, tail)[k] == CStr(rs[k].field)
  {
    if rs != [] {
      OwnNames(rs[1..], tail);
      OwnNameExact(rs[0].field);
      assert rs[0].field + PackAll(rs[1..]) + tail == rs[0].field + (PackAll(rs[1..]) + tail);
      forall k | 0 <= k < |rs|
        ensures SeenNames(rs, tail)[k] == CStr(rs[k].field)
      {
        if k > 0 {
          assert rs[k] == rs[1..][k - 1];
        }
      }
    }
  }

  // ----- The cursor -----

  /** The records from the cursor j to the end of what was read. */
  ghost predicate RecordsAt(text: seq<byte>, j: nat, len: nat, rs: seq<Record>) {
    j <= len <= |text| && Decode(text[j..len]) == Some(rs)
  }

  lemma FirstRecord(b: seq<byte>, rs: seq<Record>)
    requires b != [] && Decode(b) == Some(rs)
    ensures rs != [] && |b| >= EVENT_SIZE + |rs[0].field| && ReadU32(b[12..16]) == |rs[0].field|
    ensures b[EVENT_SIZE..EVENT_SIZE + |rs[0].field|] == rs[0].field
    ensures Decode(b[EVENT_SIZE + |rs[0].field|..]) == Some(rs[1..])
  {
  }

  lemma Within(text: seq<byte>, from: nat, len: nat, i: nat, j: nat)
    requires i <= j && from + j <= len <= |text|
    ensures text[from..len][i..j] == text[from + i..from + j]
  {
    var part := text[from..len];
    assert forall k :: i <= k < j ==> part[k] == text[from + k];
  }

  lemma Behind(text: seq<byte>, from: nat, len: nat, i: nat)
    requires from + i <= len <= |text|
    ensures text[from..len][i..] == text[from + i..len]
  {
    Within(text, from, len, i, len - from);
  }

  lemma Rejoin(text: seq<byte>, from: nat, next: nat, len: nat)
    requires from <= next <= len <= |text|
    ensures text[from..] == text[from..next] + text[next..len] + text[len..]
  {
    assert text[from..next] + text[next..len] == text[from..len];
    assert text[from..len] + text[len..] == text[from..];
  }

  /** The length at the cursor gives the next record's place. */
  lemma CursorNext(text: seq<byte>, j: nat, len: nat, rs: seq<Record>)
    requires RecordsAt(text, j, len, rs) && j < len
    ensures rs != [] && j + EVENT_SIZE + |rs[0].field| <= len
    ensures ReadU32(text[j + 12..j + 16]) == |rs[0].field|
    ensures var next := j + EVENT_SIZE + |rs[0].field|;
            text[j + EVENT_SIZE..next] == rs[0].field && RecordsAt(text, next, len, rs[1..])
  {
    FirstRecord(text[j..len], rs);
    var n := |rs[0].field|;
    Within(text, j, len, 12, 16);
    Within(text, j, len, EVENT_SIZE, EVENT_SIZE + n);
    Behind(text, j, len, EVENT_SIZE + n);
  }

  /** The string behind the head at the cursor is the name that strcmp sees. */
  lemma CursorName(text: seq<byte>, j: nat, len: nat, rs: seq<Record>)
    requires RecordsAt(text, j, len, rs) && j < len
    ensures rs != [] && j + EVENT_SIZE <= len
    ensures SeenNames(rs, text[len..]) ==
            [CStr(text[j + EVENT_SIZE..])] + SeenNames(rs[1..], text[len..])
  {
    CursorNext(text, j, len, rs);
    var next := j + EVENT_SIZE + |rs[0].field|;
    PackDecoded(text[next..len]);
    Rejoin(text, j + EVENT_SIZE, next, len);
  }
}
