/** The JavaScript string operations the dashboard uses: `toLowerCase`,
    `toUpperCase` (ASCII letters only), `includes`, `split(c)`, and the decimal
    rendering of integers (`String(n)`, template-literal interpolation). */
module Text {
  import opened Seqs

  function LowerChar(c: char): (r: char)
    ensures 'A' <= c <= 'Z' ==> r as int == c as int + 32
    ensures !('A' <= c <= 'Z') ==> r == c
  {
    if 'A' <= c <= 'Z' then (c as int + 32) as char else c
  }

  function UpperChar(c: char): (r: char)
    ensures 'a' <= c <= 'z' ==> r as int == c as int - 32
    ensures !('a' <= c <= 'z') ==> r == c
  {
    if 'a' <= c <= 'z' then (c as int - 32) as char else c
  }

  /** `s.toLowerCase()` on ASCII letters. */
  function Lower(s: string): (r: string)
    ensures |r| == |s|
    ensures forall i :: 0 <= i < |s| ==> r[i] == LowerChar(s[i])
  {
    if s == [] then [] else [LowerChar(s[0])] + Lower(s[1..])
  }

  /** `s.toUpperCase()` on ASCII letters. */
  function Upper(s: string): (r: string)
    ensures |r| == |s|
    ensures forall i :: 0 <= i < |s| ==> r[i] == UpperChar(s[i])
  {
    if s == [] then [] else [UpperChar(s[0])] + Upper(s[1..])
  }

  /** Upper-casing is idempotent. */
  lemma UpperIdempotent(s: string)
    ensures Upper(Upper(s)) == Upper(s)
  {
    assert forall i :: 0 <= i < |s| ==> UpperChar(UpperChar(s[i])) == UpperChar(s[i]);
  }

  predicate IsPrefix(p: string, s: string)
  {
    |p| <= |s| && s[..|p|] == p
  }

  /** `s.includes(needle)`. */
  predicate Contains(s: string, needle: string)
    decreases |s|
  {
    IsPrefix(needle, s) || (s != [] && Contains(s[1..], needle))
  }

  /** `needle` occurs in `s` starting at index `i`. */
  predicate OccursAt(s: string, needle: string, i: int)
  {
    0 <= i <= |s| - |needle| && s[i..i + |needle|] == needle
  }

  /** `Contains` holds exactly when the needle occurs at some position. */
  lemma {:induction false} ContainsAt(s: string, needle: string)
    ensures Contains(s, needle) <==> exists i :: OccursAt(s, needle, i)
    decreases |s|
  {
    if s != [] {
      ContainsAt(s[1..], needle);
      if Contains(s[1..], needle) {
        var i :| OccursAt(s[1..], needle, i);
        assert s[i + 1..i + 1 + |needle|] == s[1..][i..i + |needle|];
        assert OccursAt(s, needle, i + 1);
      }
      if IsPrefix(needle, s) {
        assert OccursAt(s, needle, 0);
      }
      if exists i :: OccursAt(s, needle, i) {
        var i :| OccursAt(s, needle, i);
        if i > 0 {
          assert s[1..][i - 1..i - 1 + |needle|] == s[i..i + |needle|];
          assert OccursAt(s[1..], needle, i - 1);
        }
      }
    } else {
      if exists i :: OccursAt(s, needle, i) {
        var i :| OccursAt(s, needle, i);
        assert needle == s[i..i + |needle|] == [];
        assert IsPrefix(needle, s);
      }
      if Contains(s, needle) {
        assert OccursAt(s, needle, 0);
      }
    }
  }

  /** Every string includes the empty string. */
  lemma ContainsEmpty(s: string)
    ensures Contains(s, "")
  {
    assert IsPrefix("", s);
  }

  /** Every character of an included needle occurs in the string. */
  lemma ContainsChars(s: string, needle: string)
    requires Contains(s, needle)
    ensures forall c :: c in needle ==> c in s
  {
    ContainsAt(s, needle);
    var i :| OccursAt(s, needle, i);
    forall c | c in needle ensures c in s {
      var j :| 0 <= j < |needle| && needle[j] == c;
      assert s[i..i + |needle|][j] == s[i + j];
    }
  }

  /** A needle never occurs in a string shorter than itself. */
  lemma {:induction false} ContainsNeedsRoom(s: string, needle: string)
    requires |needle| > |s|
    ensures !Contains(s, needle)
    decreases |s|
  {
    if s != [] {
      ContainsNeedsRoom(s[1..], needle);
    }
  }

  /** The character `c` occurs in `s`. */
  predicate HasChar(s: string, c: char)
  {
    c in s
  }

  /** `s.split(sep)`: the pieces between occurrences of `sep`. */
  function Split(s: string, sep: char): (r: seq<string>)
    ensures |r| >= 1
    decreases |s|
  {
    if s == [] then [""]
    else
      var rest := Split(s[1..], sep);
      if s[0] == sep then [""] + rest
      else [[s[0]] + rest[0]] + rest[1..]
  }

  /** `pieces.join(sep)`. */
  function Join(pieces: seq<string>, sep: char): string
    requires |pieces| >= 1
  {
    if |pieces| == 1 then pieces[0] else pieces[0] + [sep] + Join(pieces[1..], sep)
  }

  /** Joining the pieces of a split gives back the original string, and no piece
      holds the separator. */
  lemma {:induction false} JoinSplit(s: string, sep: char)
    ensures Join(Split(s, sep), sep) == s
    ensures forall k :: 0 <= k < |Split(s, sep)| ==> sep !in Split(s, sep)[k]
    decreases |s|
  {
    if s != [] {
      JoinSplit(s[1..], sep);
      var rest := Split(s[1..], sep);
      if s[0] == sep {
        assert Split(s, sep)[1..] == rest;
        assert s == [sep] + s[1..];
      } else {
        var r := Split(s, sep);
        assert r[0] == [s[0]] + rest[0];
        assert r[1..] == rest[1..];
        if |rest| == 1 {
          assert s == [s[0]] + rest[0];
        } else {
          assert Join(rest, sep) == rest[0] + [sep] + Join(rest[1..], sep);
          assert s == [s[0]] + s[1..];
        }
        forall k | 0 <= k < |r| ensures sep !in r[k] {
          if k > 0 {
            assert r[k] == rest[k];
          }
        }
      }
    }
  }

  /** `s.split(sep)[0]`: the text before the first `sep`, or all of `s`. */
  function BeforeFirst(s: string, sep: char): (r: string)
  {
    Split(s, sep)[0]
  }

  /** The first piece is a prefix of `s` free of `sep`, and it ends where the
      first `sep` stands (or at the end of `s`). */
  lemma {:induction false} BeforeFirstSpec(s: string, sep: char)
    ensures IsPrefix(BeforeFirst(s, sep), s)
    ensures sep !in BeforeFirst(s, sep)
    ensures |BeforeFirst(s, sep)| < |s| <==> sep in s
    ensures |BeforeFirst(s, sep)| < |s| ==> s[|BeforeFirst(s, sep)|] == sep
    decreases |s|
  {
    if s != [] {
      BeforeFirstSpec(s[1..], sep);
      JoinSplit(s, sep);
    }
  }

  /** `s.split(sep)[1]`, which JavaScript gives as `undefined` when `sep` does not
      occur in `s`. */
  function SecondPiece(s: string, sep: char): (r: Option<string>)
    ensures r.Some? <==> sep in s
  {
    JoinSplit(s, sep);
    var pieces := Split(s, sep);
    if |pieces| >= 2 then Some(pieces[1]) else None
  }

  /** `split(sep)[1]` is the first piece of what follows the first `sep`. */
  lemma {:induction false} SecondPieceAfterFirst(s: string, sep: char)
    requires sep in s
    ensures |BeforeFirst(s, sep)| < |s|
    ensures SecondPiece(s, sep) == Some(BeforeFirst(s[|BeforeFirst(s, sep)| + 1..], sep))
    decreases |s|
  {
    BeforeFirstSpec(s, sep);
    var pieces := Split(s, sep);
    var rest := Split(s[1..], sep);
    assert |pieces| >= 2 by { assert SecondPiece(s, sep).Some?; }
    if s[0] != sep {
      assert sep in s[1..];
      SecondPieceAfterFirst(s[1..], sep);
      assert |rest| >= 2 by { assert SecondPiece(s[1..], sep).Some?; }
      assert pieces[0] == [s[0]] + rest[0] && pieces[1] == rest[1];
      assert s[|pieces[0]| + 1..] == s[1..][|rest[0]| + 1..];
    }
  }

  function DigitChar(d: nat): char
    requires d < 10
  {
    "0123456789"[d]
  }

  /** `String(n)` for a natural number: its decimal digits, without leading zeros. */
  function NatToString(n: nat): (r: string)
    ensures |r| >= 1
    ensures forall i :: 0 <= i < |r| ==> '0' <= r[i] <= '9'
  {
    if n < 10 then [DigitChar(n)] else NatToString(n / 10) + [DigitChar(n % 10)]
  }

  /** Reads a string of decimal digits back as a number. */
  function ParseDigits(s: string): nat
    requires forall i :: 0 <= i < |s| ==> '0' <= s[i] <= '9'
  {
    if s == [] then 0 else 10 * ParseDigits(s[..|s| - 1]) + (s[|s| - 1] as int - '0' as int)
  }

  /** The decimal rendering can be read back: it loses nothing. */
  lemma {:induction false} NatToStringRoundTrip(n: nat)
    ensures ParseDigits(NatToString(n)) == n
  {
    if n >= 10 {
      NatToStringRoundTrip(n / 10);
      var s := NatToString(n);
      assert s[..|s| - 1] == NatToString(n / 10);
    }
  }

  /** Different numbers render differently. */
  lemma NatToStringInjective(m: nat, n: nat)
    requires NatToString(m) == NatToString(n)
    ensures m == n
  {
    NatToStringRoundTrip(m);
    NatToStringRoundTrip(n);
  }

  /** `String(i)` for any integer. */
  function IntToString(i: int): (r: string)
  {
    if i < 0 then "-" + NatToString(-i) else NatToString(i)
  }
}
