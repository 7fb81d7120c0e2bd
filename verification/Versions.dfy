/**
 * The order of version strings: a version is taken apart into numbers, words
 * and single characters, which are compared one by one; a tilde sorts before
 * the end of the string.
 */
module Versions {

  datatype Token = Tilde | Number(value: nat) | Word(text: string) | Other(c: char)

  predicate IsDigit(c: char) { '0' <= c <= '9' }

  predicate IsLetter(c: char) { 'a' <= c <= 'z' || 'A' <= c <= 'Z' }

  // ----- taking a version apart

  /** How long a run of digits, or of letters, a string starts with. */
  function Digits(s: string): (n: nat)
    ensures n <= |s| && (forall i :: 0 <= i < n ==> IsDigit(s[i])) && (n < |s| ==> !IsDigit(s[n]))
  {
    if s == "" || !IsDigit(s[0]) then 0 else 1 + Digits(s[1..])
  }

  function Letters(s: string): (n: nat)
    ensures n <= |s| && (forall i :: 0 <= i < n ==> IsLetter(s[i])) && (n < |s| ==> !IsLetter(s[n]))
  {
    if s == "" || !IsLetter(s[0]) then 0 else 1 + Letters(s[1..])
  }

  ghost predicate AllDigits(s: string) {
    forall i :: 0 <= i < |s| ==> IsDigit(s[i])
  }

  ghost predicate AllLetters(s: string) {
    forall i :: 0 <= i < |s| ==> IsLetter(s[i])
  }

  function ValueOf(digits: string): nat
    requires AllDigits(digits)
  {
    if digits == "" then 0
    else
      assert IsDigit(digits[|digits| - 1]);
      ValueOf(digits[..|digits| - 1]) * 10 + (digits[|digits| - 1] as int - '0' as int)
  }

  /** The length of the first piece: a whole run of digits or of letters, or one character. */
  function PieceLength(s: string): (n: nat)
    requires s != ""
    ensures 0 < n <= |s|
  {
    if IsDigit(s[0]) then Digits(s) else if IsLetter(s[0]) then Letters(s) else 1
  }

  ghost predicate IsPiece(p: string) {
    p != "" && (|p| == 1 || AllDigits(p) || AllLetters(p))
  }

  function TokenOf(p: string): Token
    requires IsPiece(p)
  {
    if IsDigit(p[0]) then Number(ValueOf(p))
    else if IsLetter(p[0]) then Word(p)
    else if p[0] == '~' then Tilde
    else Other(p[0])
  }

  function Pieces(s: string): (r: seq<string>)
    ensures forall i :: 0 <= i < |r| ==> IsPiece(r[i])
  {
    if s == "" then [] else [s[..PieceLength(s)]] + Pieces(s[PieceLength(s)..])
  }

  function Tokens(s: string): seq<Token> {
    if s == "" then [] else [TokenOf(s[..PieceLength(s)])] + Tokens(s[PieceLength(s)..])
  }

  function Joined(r: seq<string>): string {
    if r == [] then "" else r[0] + Joined(r[1..])
  }

  /** The pieces make up the version, and there is one token for each. */
  lemma {:induction false} PiecesCover(s: string)
    ensures Joined(Pieces(s)) == s
    ensures |Tokens(s)| == |Pieces(s)| && forall i :: 0 <= i < |Pieces(s)| ==> Tokens(s)[i] == TokenOf(Pieces(s)[i])
  {
    hide TokenOf;
    if s != "" {
      var n := PieceLength(s);
      hide PieceLength;
      PiecesCover(s[n..]);
      assert s == s[..n] + s[n..];
    }
  }

  lemma TokensFrom(s: string)
    ensures s == "" ==> Tokens(s) == []
    ensures s != "" ==> IsPiece(s[..PieceLength(s)]) && Tokens(s) == [TokenOf(s[..PieceLength(s)])]
                                                                     + Tokens(s[PieceLength(s)..])
    ensures s != "" && IsDigit(s[0]) ==> AllDigits(s[..PieceLength(s)])
  {
  }

  lemma NextToken(s: string)
    requires s != "" && PieceLength(s) < |s|
    ensures var rest := s[PieceLength(s)..]; Tokens(rest) != []
    ensures Tokens(s)[0].Number? ==> !Tokens(s[PieceLength(s)..])[0].Number?
    ensures Tokens(s)[0].Word? ==> !Tokens(s[PieceLength(s)..])[0].Word?
  {
    hide ValueOf;
    hide Tokens;
    TokensFrom(s);
    var n := PieceLength(s);
    TokensFrom(s[n..]);
    assert s[n..][0] == s[n] && s[..n][0] == s[0];
    var m := PieceLength(s[n..]);
    assert s[n..][..m][0] == s[n];
  }

  /** No run of digits or letters is cut in two. */
  lemma {:induction false} RunsWhole(s: string, i: nat)
    requires i + 1 < |Tokens(s)|
    ensures !(Tokens(s)[i].Number? && Tokens(s)[i + 1].Number?) && !(Tokens(s)[i].Word? && Tokens(s)[i + 1].Word?)
    decreases i
  {
    var n := PieceLength(s);
    if i == 0 {
      NextToken(s);
    } else {
      RunsWhole(s[n..], i - 1);
    }
  }

  method ExplodeVersion(version: string) returns (r: seq<Token>)
    ensures r == Tokens(version)
  {
    hide ValueOf;
    hide Digits;
    hide Letters;
    hide Tokens;
    hide IsPiece;
    TokensFrom("");
    r := [];
    var s := version;
    while s != ""
      invariant Tokens(version) == r + Tokens(s)
      decreases |s|
    {
      TokensFrom(s);
      var n := PieceLength(s);
      assert s[..n][0] == s[0];
      if IsDigit(s[0]) {
        r := r + [Number(ValueOf(s[..n]))];
      } else if IsLetter(s[0]) {
        r := r + [Word(s[..n])];
      } else if s[0] == '~' {
        r := r + [Tilde];
      } else {
        r := r + [Other(s[0])];
      }
      s := s[n..];
    }
  }

  // ----- comparing

  /** Where a token stands; the end of a version ranks with the numbers and before all of them. */
  function Rank(t: Token): int {
    match t
    case Tilde => -1
    case Number(_) => 0
    case Word(_) => 1
    case Other(_) => 2
  }

  function Sign(n: int): int {
    if n < 0 then -1 else if n > 0 then 1 else 0
  }

  function CompareText(a: string, b: string): int {
    if a == "" && b == "" then 0
    else if a == "" then -1
    else if b == "" then 1
    else if a[0] < b[0] then -1
    else if a[0] > b[0] then 1
    else CompareText(a[1..], b[1..])
  }

  function CompareToken(a: Token, b: Token): int {
    if Rank(a) != Rank(b) then Sign(Rank(a) - Rank(b))
    else match a {
      case Tilde => 0
      case Number(n) => Sign(n - b.value)
      case Word(s) => CompareText(s, b.text)
      case Other(c) => if c < b.c then -1 else if c > b.c then 1 else 0
    }
  }

  function Compare(a: seq<Token>, b: seq<Token>): int {
    if a == [] && b == [] then 0
    else if a == [] then if b[0].Tilde? then 1 else -1
    else if b == [] then if a[0].Tilde? then -1 else 1
    else if CompareToken(a[0], b[0]) != 0 then CompareToken(a[0], b[0])
    else Compare(a[1..], b[1..])
  }

  lemma {:induction false} TextOrder(a: string, b: string)
    ensures CompareText(a, b) in {-1, 0, 1} && CompareText(b, a) == -CompareText(a, b)
    ensures CompareText(a, b) == 0 <==> a == b
  {
    if a != "" && b != "" {
      TextOrder(a[1..], b[1..]);
      assert a == [a[0]] + a[1..] && b == [b[0]] + b[1..];
    }
  }

  lemma {:induction false} TextTransitive(a: string, b: string, c: string)
    requires CompareText(a, b) <= 0 && CompareText(b, c) <= 0
    ensures CompareText(a, c) <= 0
  {
    if a != "" && b != "" && c != "" && a[0] == b[0] == c[0] {
      TextTransitive(a[1..], b[1..], c[1..]);
    }
  }

  lemma TokenOrder(a: Token, b: Token)
    ensures CompareToken(a, b) in {-1, 0, 1} && CompareToken(b, a) == -CompareToken(a, b)
    ensures CompareToken(a, b) == 0 <==> a == b
  {
    if a.Word? && b.Word? {
      TextOrder(a.text, b.text);
    }
  }

  lemma TokenTransitive(a: Token, b: Token, c: Token)
    requires CompareToken(a, b) <= 0 && CompareToken(b, c) <= 0
    ensures CompareToken(a, c) <= 0
  {
    if a.Word? && b.Word? && c.Word? {
      TextTransitive(a.text, b.text, c.text);
    }
  }

  /** Either order may be asked for, and versions compare equal only if they have the same tokens. */
  lemma {:induction false} Antisymmetric(a: seq<Token>, b: seq<Token>)
    ensures Compare(a, b) in {-1, 0, 1} && Compare(b, a) == -Compare(a, b)
    ensures Compare(a, b) == 0 <==> a == b
  {
    if a != [] && b != [] {
      TokenOrder(a[0], b[0]);
      Antisymmetric(a[1..], b[1..]);
      assert a == [a[0]] + a[1..] && b == [b[0]] + b[1..];
    }
  }

  lemma {:induction false} Transitive(a: seq<Token>, b: seq<Token>, c: seq<Token>)
    requires Compare(a, b) <= 0 && Compare(b, c) <= 0
    ensures Compare(a, c) <= 0
    decreases |a| + |b| + |c|
  {
    if a != [] && b != [] && c != [] {
      TokenOrder(a[0], b[0]);
      TokenOrder(b[0], c[0]);
      TokenOrder(a[0], c[0]);
      TokenTransitive(a[0], b[0], c[0]);
      if a[0] == b[0] == c[0] {
        Transitive(a[1..], b[1..], c[1..]);
      }
    }
  }

  /** A version that goes on with a tilde sorts before the one that ends there; any other continuation sorts after. */
  lemma {:induction false} Continuation(a: seq<Token>, t: Token, rest: seq<Token>)
    ensures Compare(a + [t] + rest, a) == if t.Tilde? then -1 else 1
  {
    if a == [] {
      assert a + [t] + rest == [t] + rest;
    } else {
      TokenOrder(a[0], a[0]);
      Continuation(a[1..], t, rest);
      assert (a + [t] + rest)[1..] == a[1..] + [t] + rest;
    }
  }

  method VercmpPart(a: string, b: string) returns (r: int)
    ensures r == Compare(Tokens(a), Tokens(b))
  {
    var va := ExplodeVersion(a);
    var vb := ExplodeVersion(b);
    while true
      invariant Compare(Tokens(a), Tokens(b)) == Compare(va, vb)
      decreases |va| + |vb|
    {
      if va == [] && vb == [] {
        return 0;
      }
      var oa := if va == [] then 0 else Rank(va[0]);
      var ob := if vb == [] then 0 else Rank(vb[0]);
      if oa < ob {
        return -1;
      } else if oa > ob {
        return 1;
      } else if va == [] {
        return -1;
      } else if vb == [] {
        return 1;
      }
      var c := CompareToken(va[0], vb[0]);
      TokenOrder(va[0], vb[0]);
      if c < 0 {
        return -1;
      } else if c > 0 {
        return 1;
      }
      va, vb := va[1..], vb[1..];
    }
  }

  datatype Version = Version(epoch: int, version: string, revision: string)

  /** Epochs first, then versions, then revisions; only the sign of the result matters. */
  function Vercmp(a: Version, b: Version): int {
    if a.epoch != b.epoch then a.epoch - b.epoch
    else if Compare(Tokens(a.version), Tokens(b.version)) != 0 then Compare(Tokens(a.version), Tokens(b.version))
    else Compare(Tokens(a.revision), Tokens(b.revision))
  }

  method CompareVersions(a: Version, b: Version) returns (r: int)
    ensures r == Vercmp(a, b)
  {
    r := a.epoch - b.epoch;
    if r == 0 {
      r := VercmpPart(a.version, b.version);
    }
    if r == 0 {
      r := VercmpPart(a.revision, b.revision);
    }
  }

  lemma VercmpOrder(a: Version, b: Version)
    ensures Sign(Vercmp(b, a)) == -Sign(Vercmp(a, b))
    ensures Vercmp(a, b) == 0 <==>
              a.epoch == b.epoch && Tokens(a.version) == Tokens(b.version) && Tokens(a.revision) == Tokens(b.revision)
  {
    Antisymmetric(Tokens(a.version), Tokens(b.version));
    Antisymmetric(Tokens(a.revision), Tokens(b.revision));
  }

  lemma VercmpTransitive(a: Version, b: Version, c: Version)
    requires Vercmp(a, b) <= 0 && Vercmp(b, c) <= 0
    ensures Vercmp(a, c) <= 0
  {
    hide Compare;
    hide Tokens;
    VercmpOrder(a, b);
    VercmpOrder(b, c);
    if a.epoch == b.epoch == c.epoch {
      Antisymmetric(Tokens(a.version), Tokens(b.version));
      Antisymmetric(Tokens(b.version), Tokens(c.version));
      Antisymmetric(Tokens(a.version), Tokens(c.version));
      Transitive(Tokens(a.version), Tokens(b.version), Tokens(c.version));
      if Tokens(a.version) == Tokens(c.version) {
        Transitive(Tokens(c.version), Tokens(a.version), Tokens(b.version));
        Transitive(Tokens(a.revision), Tokens(b.revision), Tokens(c.revision));
      }
    }
  }
}
