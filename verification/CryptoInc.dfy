/** crypto_inc of crypto/algapi.c: a big-endian counter of any length is incremented
    by 32-bit words from its end, then by bytes. */
module CryptoInc {

  type Byte = x: int | 0 <= x < 256

  /** The number the bytes spell. */
  function Value(s: seq<Byte>): nat {
    if s == [] then 0 else Value(s[..|s| - 1]) * 256 + s[|s| - 1]
  }

  function Range(n: nat): (r: nat)
    ensures r > 0
  {
    if n == 0 then 1 else Range(n - 1) * 256
  }

  /** Add one from the last byte on, while it carries. */
  function Inc(s: seq<Byte>): (r: seq<Byte>)
    ensures |r| == |s|
  {
    if s == [] then []
    else if s[|s| - 1] == 255 then Inc(s[..|s| - 1]) + [0]
    else s[..|s| - 1] + [s[|s| - 1] + 1]
  }

  lemma {:induction false} ValueRange(s: seq<Byte>)
    ensures Value(s) < Range(|s|)
  {
    if s != [] { ValueRange(s[..|s| - 1]); }
  }

  /** The counter goes up by one and wraps from its largest value to zero. */
  lemma {:induction false} IncAddsOne(s: seq<Byte>)
    ensures Value(Inc(s)) == if Value(s) + 1 == Range(|s|) then 0 else Value(s) + 1
  {
    if s != [] {
      var init, last := s[..|s| - 1], s[|s| - 1];
      IncAddsOne(init);
      ValueRange(init);
      if last == 255 {
        assert (Inc(init) + [0])[..|s| - 1] == Inc(init);
      } else {
        assert (init + [last + 1])[..|s| - 1] == init;
      }
    }
  }

  /** A word as the processor sees it, and the bytes a word is stored as. */
  function Load(a: Byte, b: Byte, c: Byte, d: Byte): nat { ((a * 256 + b) * 256 + c) * 256 + d }

  function Store(w: nat): (r: seq<Byte>)
    requires w < 4294967296
    ensures |r| == 4
  {
    [w / 256 / 256 / 256, w / 256 / 256 % 256, w / 256 % 256, w % 256]
  }

  lemma {:induction false} Split(x: nat, y: Byte)
    ensures (x * 256 + y) / 256 == x && (x * 256 + y) % 256 == y
  {
  }

  lemma {:induction false} StoreLoad(a: Byte, b: Byte, c: Byte, d: Byte)
    ensures Load(a, b, c, d) < 4294967296 && Store(Load(a, b, c, d)) == [a, b, c, d]
  {
    Split((a * 256 + b) * 256 + c, d);
    Split(a * 256 + b, c);
    Split(a, b);
  }

  /** One more, in 32 bits. */
  function Bump(w: nat): nat
    requires w < 4294967296
  {
    if w == 4294967295 then 0 else w + 1
  }

  lemma {:induction false} IncLast(p: seq<Byte>, x: Byte)
    ensures Inc(p + [x]) == if x == 255 then Inc(p) + [0] else p + [x + 1]
  {
    assert (p + [x])[..|p|] == p;
  }

  /** The four bytes of a word that is one more. */
  function Bumped(a: Byte, b: Byte, c: Byte, d: Byte): (Byte, Byte, Byte, Byte) {
    if d < 255 then (a, b, c, d + 1)
    else if c < 255 then (a, b, c + 1, 0)
    else if b < 255 then (a, b + 1, 0, 0)
    else if a < 255 then (a + 1, 0, 0, 0)
    else (0, 0, 0, 0)
  }

  lemma {:induction false} BumpedIs(a: Byte, b: Byte, c: Byte, d: Byte)
    ensures Load(a, b, c, d) < 4294967296
    ensures var t := Bumped(a, b, c, d); Bump(Load(a, b, c, d)) == Load(t.0, t.1, t.2, t.3)
    ensures Bump(Load(a, b, c, d)) == 0 <==> a == b == c == d == 255
  {
  }

  lemma {:induction false} IncFour(p: seq<Byte>, a: Byte, b: Byte, c: Byte, d: Byte)
    ensures var t := Bumped(a, b, c, d);
            Inc(p + [a] + [b] + [c] + [d]) ==
            (if a == b == c == d == 255 then Inc(p) else p) + [t.0] + [t.1] + [t.2] + [t.3]
  {
    IncLast(p + [a] + [b] + [c], d);
    if d == 255 {
      IncLast(p + [a] + [b], c);
      if c == 255 {
        IncLast(p + [a], b);
        if b == 255 { IncLast(p, a); }
      }
    }
  }

  lemma {:induction false} StoreBumped(a: Byte, b: Byte, c: Byte, d: Byte, w: nat)
    requires w == Load(a, b, c, d)
    ensures w < 4294967296 && (Bump(w) == 0 <==> a == b == c == d == 255)
    ensures var t := Bumped(a, b, c, d); Store(Bump(w)) == [t.0, t.1, t.2, t.3]
  {
    BumpedIs(a, b, c, d);
    var t := Bumped(a, b, c, d);
    StoreLoad(t.0, t.1, t.2, t.3);
  }

  lemma {:induction false} IncWord(p: seq<Byte>, a: Byte, b: Byte, c: Byte, d: Byte)
    ensures var t := Bumped(a, b, c, d);
            Inc(p + [a, b, c, d]) == (if a == b == c == d == 255 then Inc(p) else p) + [t.0, t.1, t.2, t.3]
  {
    var t := Bumped(a, b, c, d);
    IncFour(p, a, b, c, d);
    assert p + [a, b, c, d] == p + [a] + [b] + [c] + [d];
    var q := if a == b == c == d == 255 then Inc(p) else p;
    assert q + [t.0, t.1, t.2, t.3] == q + [t.0] + [t.1] + [t.2] + [t.3];
  }

  /** A word step does what the byte steps do: it ends the carry or hands it on. */
  lemma {:induction false} WordStep(p: seq<Byte>, a: Byte, b: Byte, c: Byte, d: Byte, w: nat, s: seq<Byte>)
    requires w == Load(a, b, c, d) < 4294967296 && s == Store(Bump(w))
    ensures Inc(p + [a, b, c, d]) == (if Bump(w) == 0 then Inc(p) else p) + s
  {
    StoreBumped(a, b, c, d, w);
    IncWord(p, a, b, c, d);
  }

  /** crypto_inc_byte on the first n bytes. */
  method IncBytes(a: array<Byte>, n: nat)
    requires n <= a.Length
    modifies a
    ensures a[..] == Inc(old(a[..n])) + old(a[n..])
  {
    var size: nat := n;
    while size > 0
      invariant size <= n && a[..size] == old(a[..size])
      invariant a[n..] == old(a[n..])
      invariant Inc(old(a[..n])) == Inc(a[..size]) + a[size..n]
    {
      var c: int := (a[size - 1] as int + 1) % 256;
      assert a[..size] == a[..size - 1] + [a[size - 1]];
      IncLast(a[..size - 1], a[size - 1]);
      a[size - 1] := c;
      if c != 0 {
        assert a[..] == a[..size - 1] + [c] + a[size..n] + a[n..];
        return;
      }
      size := size - 1;
    }
    assert a[..] == a[..0] + a[0..n] + a[n..];
  }

  /** One pass of crypto_inc's loop, on the word at `at`. */
  method BumpWord(a: array<Byte>, at: nat) returns (c: nat)
    requires at + 4 <= a.Length
    modifies a
    ensures a[..at] == old(a[..at]) && a[at + 4..] == old(a[at + 4..])
    ensures Inc(old(a[..at + 4])) == (if c == 0 then Inc(a[..at]) else a[..at]) + a[at..at + 4]
  {
    var w := Load(a[at], a[at + 1], a[at + 2], a[at + 3]);
    StoreBumped(a[at], a[at + 1], a[at + 2], a[at + 3], w);
    c := Bump(w);
    var s := Store(c);
    WordStep(a[..at], a[at], a[at + 1], a[at + 2], a[at + 3], w, s);
    assert a[..at + 4] == a[..at] + [a[at], a[at + 1], a[at + 2], a[at + 3]];
    a[at], a[at + 1], a[at + 2], a[at + 3] := s[0], s[1], s[2], s[3];
    assert a[at..at + 4] == s;
  }

  /** crypto_inc: the bytes end up as the plain increment leaves them. */
  method Increment(a: array<Byte>)
    modifies a
    ensures a[..] == Inc(old(a[..]))
  {
    ghost var whole := Inc(a[..]);
    var size: nat := a.Length;
    assert a[..size] == a[..];
    while size >= 4
      invariant size <= a.Length && whole == Inc(a[..size]) + a[size..]
    {
      ghost var tail := a[size..];
      var c := BumpWord(a, size - 4);
      Regroup(a[..], size - 4, tail);
      if c != 0 { return; }
      size := size - 4;
    }
    IncBytes(a, size);
  }

  lemma {:induction false} Regroup(s: seq<Byte>, at: nat, tail: seq<Byte>)
    requires at + 4 <= |s| && s[at + 4..] == tail
    ensures s[at..at + 4] + tail == s[at..] && s[..at] + s[at..] == s
    ensures forall p: seq<Byte> :: p + s[at..at + 4] + tail == p + s[at..]
  {
    forall p: seq<Byte> ensures p + s[at..at + 4] + tail == p + s[at..] {
      assert p + s[at..at + 4] + tail == p + (s[at..at + 4] + tail);
    }
  }
}
