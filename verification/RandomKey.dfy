/** The random cookie key: random bytes turned into letters and digits in place. */
module RandomKey {
  newtype byte = x: int | 0 <= x < 256

  const KEY_LENGTH := 32
  const LETTERS := 62

  /** The i-th of the digits, the capital and the small letters. */
  function Letter(i: nat): (c: char)
    requires i < LETTERS
  {
    if i < 10 then '0' + i as char else if i < 36 then 'A' + (i - 10) as char else 'a' + (i - 36) as char
  }

  function LetterOf(b: byte): byte { Letter(b as nat % LETTERS) as int as byte }

  function Image(bytes: seq<byte>): (r: seq<byte>)
    ensures |r| == |bytes|
    ensures forall i :: 0 <= i < |bytes| ==> r[i] == LetterOf(bytes[i])
  {
    seq(|bytes|, i requires 0 <= i < |bytes| => LetterOf(bytes[i]))
  }

  function AsString(bytes: seq<byte>): (s: string)
    ensures |s| == |bytes|
  {
    seq(|bytes|, i requires 0 <= i < |bytes| => bytes[i] as int as char)
  }

  /** Overwrites the random bytes by the letters they select. */
  method GenerateSecret(bytes: array<byte>) returns (secret: string)
    modifies bytes
    ensures bytes[..] == Image(old(bytes[..]))
    ensures secret == AsString(Image(old(bytes[..])))
  {
    for i := 0 to bytes.Length
      invariant forall j :: 0 <= j < i ==> bytes[j] == LetterOf(old(bytes[j]))
      invariant forall j :: i <= j < bytes.Length ==> bytes[j] == old(bytes[j])
    {
      bytes[i] := LetterOf(bytes[i]);
    }
    secret := AsString(bytes[..]);
  }

  predicate Alphanumeric(c: char) { '0' <= c <= '9' || 'A' <= c <= 'Z' || 'a' <= c <= 'z' }

  lemma SecretIsAlphanumeric(bytes: seq<byte>, i: nat)
    requires i < |bytes|
    ensures Alphanumeric(AsString(Image(bytes))[i])
  {
  }

  // ---------- how often each secret comes up ----------

  predicate IsLetter(b: byte) { Alphanumeric(b as int as char) }

  function IndexOf(b: byte): (i: nat)
    requires IsLetter(b)
    ensures i < LETTERS && Letter(i) as int == b as int
  {
    var n := b as int;
    if n < 58 then n - 48 else if n < 91 then n - 55 else n - 61
  }

  /** The bytes that select a letter. */
  function Sources(letter: byte): set<byte> { set b: byte | LetterOf(b) == letter }

  function Ways(letter: byte): nat
    requires IsLetter(letter)
  {
    if IndexOf(letter) < 8 then 5 else 4
  }

  lemma Residues(b: nat, i: nat)
    requires b < 256 && i < LETTERS
    ensures b % LETTERS == i <==> b == i || b == i + 62 || b == i + 124 || b == i + 186 || b == i + 248
  {
    var q, r := b / LETTERS, b % LETTERS;
    assert b == 62 * q + r && q <= 4;
    if q == 0 {
    } else if q == 1 {
    } else if q == 2 {
    } else if q == 3 {
    } else {
      assert q == 4;
    }
  }

  lemma LetterInjective(i: nat, j: nat)
    requires i < LETTERS && j < LETTERS && Letter(i) == Letter(j)
    ensures i == j
  {
  }

  lemma SourceOf(b: byte, letter: byte)
    requires IsLetter(letter)
    ensures LetterOf(b) == letter <==> b as nat % LETTERS == IndexOf(letter)
  {
    if LetterOf(b) == letter {
      LetterInjective(b as nat % LETTERS, IndexOf(letter));
    }
  }

  lemma SourcesCount(letter: byte)
    requires IsLetter(letter)
    ensures |Sources(letter)| == Ways(letter)
  {
    var i := IndexOf(letter);
    var four: set<byte> := {i as byte, (i + 62) as byte, (i + 124) as byte, (i + 186) as byte};
    assert |four| == 4;
    var all := if i < 8 then four + {(i + 248) as byte} else four;
    forall b: byte ensures b in Sources(letter) <==> b in all {
      SourceOf(b, letter);
      Residues(b as nat, i);
    }
    assert Sources(letter) == all;
  }

  function Product(heads: set<byte>, tails: set<seq<byte>>): set<seq<byte>> {
    set b, t | b in heads && t in tails :: [b] + t
  }

  lemma ProductMember(heads: set<byte>, tails: set<seq<byte>>, p: seq<byte>)
    ensures p in Product(heads, tails) <==> p != [] && p[0] in heads && p[1..] in tails
  {
    if p != [] {
      assert p == [p[0]] + p[1..];
    }
    if p in Product(heads, tails) {
      var b, t :| b in heads && t in tails && p == [b] + t;
      assert p[1..] == t;
    }
  }

  function Preimages(s: seq<byte>): set<seq<byte>> {
    if s == [] then {[]} else Product(Sources(s[0]), Preimages(s[1..]))
  }

  lemma {:induction false} PreimagesExact(s: seq<byte>, bytes: seq<byte>)
    ensures bytes in Preimages(s) <==> Image(bytes) == s
  {
    if s != [] {
      ProductMember(Sources(s[0]), Preimages(s[1..]), bytes);
      if bytes != [] {
        PreimagesExact(s[1..], bytes[1..]);
        ImageSplits(bytes);
        assert s == [s[0]] + s[1..];
      }
    }
  }

  lemma ImageSplits(bytes: seq<byte>)
    requires bytes != []
    ensures Image(bytes) == [LetterOf(bytes[0])] + Image(bytes[1..])
  {
  }

  lemma ProductOne(h: byte, rest: set<byte>, tails: set<seq<byte>>)
    requires h !in rest
    ensures Product(rest + {h}, tails) == Product(rest, tails) + Product({h}, tails)
    ensures Product(rest, tails) !! Product({h}, tails)
  {
    forall p ensures p in Product(rest + {h}, tails) <==> p in Product(rest, tails) + Product({h}, tails)
                    ensures p in Product(rest, tails) ==> p !in Product({h}, tails) {
      ProductMember(rest + {h}, tails, p);
      ProductMember(rest, tails, p);
      ProductMember({h}, tails, p);
    }
  }

  function Times(m: nat, k: nat): nat { if m == 0 then 0 else Times(m - 1, k) + k }

  lemma {:induction false} TimesIsProduct(m: nat, k: nat)
    ensures Times(m, k) == m * k
  {
    if m > 0 {
      TimesIsProduct(m - 1, k);
      assert m * k == (m - 1) * k + k;
    }
  }

  lemma {:induction false} ProductSize(heads: set<byte>, tails: set<seq<byte>>)
    ensures |Product(heads, tails)| == Times(|heads|, |tails|)
  {
    if heads == {} {
      assert Product(heads, tails) == {};
    } else {
      var h :| h in heads;
      var rest := heads - {h};
      ProductSize(rest, tails);
      PrefixedSize(h, tails);
      ProductOne(h, rest, tails);
      assert heads == rest + {h} && |rest| == |heads| - 1;
    }
  }

  lemma {:induction false} PrefixedSize(h: byte, tails: set<seq<byte>>)
    ensures |Product({h}, tails)| == |tails|
  {
    if tails == {} {
      assert Product({h}, tails) == {};
    } else {
      var x :| x in tails;
      var rest := tails - {x};
      PrefixedSize(h, rest);
      forall p ensures p in Product({h}, tails) <==> p in Product({h}, rest) + {[h] + x}
               ensures [h] + x !in Product({h}, rest) {
        ProductMember({h}, tails, p);
        ProductMember({h}, rest, p);
        ProductMember({h}, rest, [h] + x);
        assert p != [] ==> p == [p[0]] + p[1..];
        assert ([h] + x)[1..] == x;
      }
      assert Product({h}, tails) == Product({h}, rest) + {[h] + x};
    }
  }

  function Power(base: nat, e: nat): nat { if e == 0 then 1 else base * Power(base, e - 1) }

  /** How many of the characters are among the first eight digits. */
  function LowDigits(s: seq<byte>): (k: nat)
    requires forall i :: 0 <= i < |s| ==> IsLetter(s[i])
    ensures k <= |s|
  {
    if s == [] then 0 else (if IndexOf(s[0]) < 8 then 1 else 0) + LowDigits(s[1..])
  }

  function Count(k: nat, n: nat): nat
    requires k <= n
  {
    Power(5, k) * Power(4, n - k)
  }

  lemma CountStep(k: nat, n: nat)
    requires k <= n
    ensures Count(k + 1, n + 1) == 5 * Count(k, n)
    ensures Count(k, n + 1) == 4 * Count(k, n)
  {
    var p, q := Power(5, k), Power(4, n - k);
    assert (5 * p) * q == 5 * (p * q);
    assert p * (4 * q) == 4 * (p * q);
  }

  /** Every alphanumeric text is the image of some byte strings, and of exactly this many. */
  lemma {:induction false} PreimagesCount(s: seq<byte>)
    requires forall i :: 0 <= i < |s| ==> IsLetter(s[i])
    ensures |Preimages(s)| == Count(LowDigits(s), |s|)
  {
    if s != [] {
      PreimagesCount(s[1..]);
      SourcesCount(s[0]);
      ProductSize(Sources(s[0]), Preimages(s[1..]));
      TimesIsProduct(|Sources(s[0])|, |Preimages(s[1..])|);
      CountStep(LowDigits(s[1..]), |s| - 1);
    }
  }
}
