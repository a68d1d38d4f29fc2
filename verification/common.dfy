/** Definitions shared by the server and the client: the names of the two
    system-wide objects, the operation kind, the query record and the
    fixed-size C string field the record carries the data-channel name in. */
module Common {

  datatype Option<+T> = None | Some(value: T)

  /** The largest C `int32_t` (and `int` on the platforms the program targets). */
  const MaxInt32: int := 0x7FFF_FFFF

  type Int32 = x: int | -0x8000_0000 <= x <= 0x7FFF_FFFF

  /** Name of the admission gate, the named semaphore clients queue on. */
  const SemFreeName: string := "/sem_free"
  /** Name of the persistent shared-memory segment holding the query record. */
  const ShmQueryName: string := "/shm_query"
  /** Size in bytes of the record's data-channel name field, terminator included. */
  const ShmNameSize: nat := 30
  /** `sizeof(int32_t)`: every element of a data channel takes four bytes. */
  const ElementBytes: nat := 4

  /** The two system-wide objects are told apart by name alone. */
  lemma {:induction false} SystemNamesDistinct()
    ensures SemFreeName != ShmQueryName
    ensures |SemFreeName| < ShmNameSize && |ShmQueryName| < ShmNameSize
  {
  }

  /** The requested reduction, `enum find_type`. */
  datatype FindType = Max | Min

  /** The numeric value C gives each enumerator. */
  function Code(t: FindType): (c: int)
    ensures c == 0 || c == 1
  {
    match t
    case Max => 0
    case Min => 1
  }

  /** The inverse of `Code`: the enumerator a stored code denotes, if any. */
  function FromCode(c: int): (r: Option<FindType>)
    ensures r.Some? <==> (c == 0 || c == 1)
    ensures r.Some? ==> Code(r.value) == c
  {
    if c == 0 then Some(Max)
    else if c == 1 then Some(Min)
    else None
  }

  /** The enumeration has exactly two values, `max = 0` and `min = 1`, and
      storing one and reading it back yields the same kind. */
  lemma {:induction false} FindTypeEncoding(t: FindType)
    ensures t == Max || t == Min
    ensures Code(Max) == 0 && Code(Min) == 1
    ensures FromCode(Code(t)) == Some(t)
  {
  }

  /** `struct query_t` without its two semaphores, which the handshake
      models as counters of their own. `name` is the raw `char[30]` field. */
  datatype Query = Query(kind: FindType, name: seq<char>, dataSize: Int32, returnValue: Int32)

  /** The record the server maps at startup: `ftruncate` zero-fills it. */
  function ZeroQuery(): (q: Query)
    ensures |q.name| == ShmNameSize && q.dataSize == 0 && q.returnValue == 0
    ensures forall i :: 0 <= i < ShmNameSize ==> q.name[i] == '\0'
    ensures Code(q.kind) == 0
  {
    Query(Max, seq(ShmNameSize, _ => '\0'), 0, 0)
  }

  /** The client fills in the three request fields of the record. Every one of
      them is overwritten, so the record keeps no trace of an earlier request. */
  function WriteRequest(q: Query, kind: FindType, field: seq<char>, size: Int32): (q': Query)
    ensures q'.kind == kind && q'.name == field && q'.dataSize == size
    ensures q'.returnValue == q.returnValue
  {
    q.(kind := kind, name := field, dataSize := size)
  }

  /** The record holds a single request: writing one request replaces the
      previous one entirely, whatever the record held before. */
  lemma {:induction false} SingleRequestSlot(q1: Query, q2: Query, kind: FindType, field: seq<char>, size: Int32)
    requires q1.returnValue == q2.returnValue
    ensures WriteRequest(q1, kind, field, size) == WriteRequest(q2, kind, field, size)
  {
  }

  // ---------------------------------------------------------------------
  // C strings in fixed buffers

  /** The string a C reader sees in a buffer: everything before the first NUL
      (the whole buffer if there is none). */
  function CString(buf: seq<char>): (s: string)
    ensures |s| <= |buf| && s == buf[..|s|]
    ensures '\0' !in s
    ensures |s| < |buf| ==> buf[|s|] == '\0'
  {
    if |buf| == 0 || buf[0] == '\0' then []
    else [buf[0]] + CString(buf[1..])
  }

  /** What `snprintf` leaves in a buffer of `size` bytes: at most `size - 1`
      characters of the formatted text, followed by a terminator. */
  function Truncate(s: string, size: nat): (r: string)
    requires size > 0
    ensures |r| == if |s| < size then |s| else size - 1
    ensures r == s[..|r|]
  {
    if |s| < size then s else s[..size - 1]
  }

  /** `strncpy(field, src, ShmNameSize - 1)` followed by writing a terminator
      into the last byte: the first 29 characters of `src` (or all of them),
      padded with NULs to the full 30 bytes. */
  function StoreName(src: string): (field: seq<char>)
    requires '\0' !in src
    ensures |field| == ShmNameSize
    ensures field[ShmNameSize - 1] == '\0'
  {
    seq(ShmNameSize, i requires 0 <= i < ShmNameSize =>
      if i < |src| && i < ShmNameSize - 1 then src[i] else '\0')
  }

  /** A buffer made of a NUL-free prefix and then a NUL reads back as the prefix. */
  lemma {:induction false} CStringOfTerminated(p: string, rest: seq<char>)
    requires '\0' !in p
    requires |rest| > 0 && rest[0] == '\0'
    ensures CString(p + rest) == p
  {
    if |p| == 0 {
      assert p + rest == rest;
    } else {
      assert (p + rest)[1..] == p[1..] + rest;
      CStringOfTerminated(p[1..], rest);
    }
  }

  /** The stored name is always terminated within the field, and a reader of
      the field gets back the first 29 characters of the source string. */
  lemma {:induction false} StoreNameReadsBack(src: string)
    requires '\0' !in src
    ensures |CString(StoreName(src))| < ShmNameSize
    ensures CString(StoreName(src)) == Truncate(src, ShmNameSize)
  {
    var field := StoreName(src);
    var p := Truncate(src, ShmNameSize);
    assert field == p + field[|p|..];
    CStringOfTerminated(p, field[|p|..]);
  }

  // ---------------------------------------------------------------------
  // Decimal rendering, as `%d` prints an integer

  function DigitChar(d: nat): (c: char)
    requires d < 10
    ensures '0' <= c <= '9'
  {
    ('0' as int + d) as char
  }

  function DigitValue(c: char): (d: nat)
    requires '0' <= c <= '9'
    ensures d < 10
    ensures DigitChar(d) == c
  {
    (c as int - '0' as int) as nat
  }

  /** Decimal digits of a natural number, most significant first, no leading zeros. */
  function Digits(n: nat): (s: string)
    ensures |s| >= 1
    ensures forall i :: 0 <= i < |s| ==> '0' <= s[i] <= '9'
  {
    if n < 10 then [DigitChar(n)] else Digits(n / 10) + [DigitChar(n % 10)]
  }

  /** Reads a string of decimal digits back as a number. */
  function ParseDigits(s: string): (n: nat)
    requires forall i :: 0 <= i < |s| ==> '0' <= s[i] <= '9'
  {
    if |s| == 0 then 0 else ParseDigits(s[..|s| - 1]) * 10 + DigitValue(s[|s| - 1])
  }

  lemma {:induction false} DigitsRoundTrip(n: nat)
    ensures ParseDigits(Digits(n)) == n
  {
    var s := Digits(n);
    if n >= 10 {
      assert s[..|s| - 1] == Digits(n / 10);
      DigitsRoundTrip(n / 10);
    }
  }

  /** `%d`: a minus sign for negative numbers, then the digits of the magnitude. */
  function FormatInt(n: int): (s: string)
    ensures '\0' !in s
  {
    if n < 0 then "-" + Digits(-n) else Digits(n)
  }

  /** Different numbers print differently. */
  lemma {:induction false} FormatIntInjective(a: int, b: int)
    requires FormatInt(a) == FormatInt(b)
    ensures a == b
  {
    SignShows(a);
    SignShows(b);
    if a < 0 {
      var na: nat, nb: nat := -a, -b;
      DigitsInjective(na, nb);
    } else {
      DigitsInjective(a, b);
    }
  }

  lemma {:induction false} DigitsInjective(n: nat, m: nat)
    requires Digits(n) == Digits(m)
    ensures n == m
  {
    DigitsRoundTrip(n);
    DigitsRoundTrip(m);
  }

  /** The first character tells the sign; the rest after a sign are the digits. */
  lemma {:induction false} SignShows(n: int)
    ensures FormatInt(n)[0] == '-' <==> n < 0
    ensures n < 0 ==> FormatInt(n)[1..] == Digits(-n)
    ensures n >= 0 ==> FormatInt(n) == Digits(n)
  {
    if n >= 0 {
      assert '0' <= Digits(n)[0] <= '9';
    }
  }

  /** A number below `10^k` has at most `k` digits. */
  lemma {:induction false} DigitsLength(n: nat, k: nat, bound: nat)
    requires k >= 1 && bound == Pow10(k) && n < bound
    ensures |Digits(n)| <= k
  {
    if n >= 10 {
      DigitsLength(n / 10, k - 1, Pow10(k - 1));
    }
  }

  function Pow10(k: nat): (p: nat)
    ensures p >= 1
  {
    if k == 0 then 1 else 10 * Pow10(k - 1)
  }

  /** Any 32-bit integer prints in at most eleven characters. */
  lemma {:induction false} FormatInt32Length(n: Int32)
    ensures |FormatInt(n)| <= 11
  {
    assert Pow10(10) == 10_000_000_000;
    var m: int := n;
    if m < 0 {
      DigitsLength(-m, 10, Pow10(10));
    } else {
      DigitsLength(m, 10, Pow10(10));
    }
  }
}
