/** The normalisation `parse` applies before tokenizing (app/Services/ExpressionParser.php:44):
    trim surrounding whitespace, lower-case, then delete every ' ' character. Only the plain
    space is deleted; a tab or newline inside the text survives to the tokenizer. */
module Normalize {

  /** The characters the trim step strips from either end: the ASCII members of PCRE's `\s`
      together with NUL. */
  predicate IsTrimSpace(c: char)
  {
    c == ' ' || c == '\t' || c == '\n' || c == '\U{0B}' || c == '\U{0C}' || c == '\r' || c == '\0'
  }

  predicate IsUpper(c: char)
  {
    'A' <= c <= 'Z'
  }

  function LowerChar(c: char): (d: char)
    ensures !IsUpper(d)
    ensures IsUpper(c) ==> d as int == c as int + 32
    ensures !IsUpper(c) ==> d == c
  {
    if IsUpper(c) then (c as int + 32) as char else c
  }

  /** Drops the leading trim characters. */
  function TrimStart(s: string): string
  {
    if |s| > 0 && IsTrimSpace(s[0]) then TrimStart(s[1..]) else s
  }

  /** Drops the trailing trim characters. */
  function TrimEnd(s: string): string
  {
    if |s| > 0 && IsTrimSpace(s[|s| - 1]) then TrimEnd(s[..|s| - 1]) else s
  }

  function Trim(s: string): string
  {
    TrimEnd(TrimStart(s))
  }

  /** ASCII lower-casing, character by character. */
  function Lower(s: string): string
  {
    if s == [] then [] else [LowerChar(s[0])] + Lower(s[1..])
  }

  /** `replace(' ', '')`: deletes the plain spaces and keeps everything else in order. */
  function RemoveSpaces(s: string): string
  {
    if s == [] then [] else (if s[0] == ' ' then [] else [s[0]]) + RemoveSpaces(s[1..])
  }

  /** The normalised expression handed to the tokenizer. */
  function Normalize(s: string): string
  {
    RemoveSpaces(Lower(Trim(s)))
  }

  /** `TrimStart` removes the longest prefix of trim characters. */
  lemma {:induction false} TrimStartShape(s: string)
    ensures |TrimStart(s)| <= |s| && TrimStart(s) == s[|s| - |TrimStart(s)|..]
    ensures TrimStart(s) == [] || !IsTrimSpace(TrimStart(s)[0])
    ensures forall i :: 0 <= i < |s| - |TrimStart(s)| ==> IsTrimSpace(s[i])
  {
    if |s| > 0 && IsTrimSpace(s[0]) {
      var t := s[1..];
      TrimStartShape(t);
      assert TrimStart(s) == TrimStart(t);
      assert forall i :: 1 <= i < |s| - |TrimStart(s)| ==> s[i] == t[i - 1];
    }
  }

  /** `TrimEnd` removes the longest suffix of trim characters. */
  lemma {:induction false} TrimEndShape(s: string)
    ensures |TrimEnd(s)| <= |s| && TrimEnd(s) == s[..|TrimEnd(s)|]
    ensures TrimEnd(s) == [] || !IsTrimSpace(TrimEnd(s)[|TrimEnd(s)| - 1])
    ensures forall i :: |TrimEnd(s)| <= i < |s| ==> IsTrimSpace(s[i])
  {
    if |s| > 0 && IsTrimSpace(s[|s| - 1]) {
      TrimEndShape(s[..|s| - 1]);
    }
  }

  /** `Lower` lower-cases each character in place. */
  lemma {:induction false} LowerShape(s: string)
    ensures |Lower(s)| == |s| && forall i :: 0 <= i < |s| ==> Lower(s)[i] == LowerChar(s[i])
  {
    if s != [] {
      LowerShape(s[1..]);
    }
  }

  /** `RemoveSpaces` keeps exactly the characters other than ' '. */
  lemma {:induction false} RemoveSpacesShape(s: string)
    ensures |RemoveSpaces(s)| <= |s|
    ensures forall c :: c in RemoveSpaces(s) <==> c in s && c != ' '
  {
    if s != [] {
      RemoveSpacesShape(s[1..]);
      assert s == [s[0]] + s[1..];
    }
  }

  /** The normalised text has no space, no upper-case letter, and no trim character at
      either end. */
  lemma NormalizeShape(s: string)
    ensures ' ' !in Normalize(s)
    ensures forall c :: c in Normalize(s) ==> !IsUpper(c)
    ensures Normalize(s) == [] || (!IsTrimSpace(Normalize(s)[0]) && !IsTrimSpace(Normalize(s)[|Normalize(s)| - 1]))
  {
    var t := Trim(s);
    TrimStartShape(s);
    TrimEndShape(TrimStart(s));
    LowerShape(t);
    var l := Lower(t);
    RemoveSpacesShape(l);
    assert forall c :: c in l ==> !IsUpper(c);
    NormalizeEnds(l);
  }

  /** Every character of the normalised text is the lower-case form of a character of the
      input, and none is a space. */
  lemma NormalizedFrom(s: string, c: char)
    requires c in Normalize(s)
    ensures c != ' ' && exists j :: 0 <= j < |s| && c == LowerChar(s[j])
  {
    var t := Trim(s);
    var l := Lower(t);
    RemoveSpacesShape(l);
    LowerShape(t);
    var k :| 0 <= k < |l| && l[k] == c;
    TrimStartShape(s);
    TrimEndShape(TrimStart(s));
    var j := k + (|s| - |TrimStart(s)|);
    assert t[k] == s[j];
  }

  /** Lower-casing keeps trim characters and non-trim characters apart, so the ends of a
      trimmed text stay non-blank through `Lower` and `RemoveSpaces`. */
  lemma NormalizeEnds(l: string)
    requires l == [] || (!IsTrimSpace(l[0]) && !IsTrimSpace(l[|l| - 1]))
    ensures RemoveSpaces(l) == [] || (!IsTrimSpace(RemoveSpaces(l)[0]) && !IsTrimSpace(RemoveSpaces(l)[|RemoveSpaces(l)| - 1]))
  {
    if l != [] {
      assert l == [l[0]] + l[1..];
      if |l| == 1 {
        assert RemoveSpaces(l) == [l[0]];
      } else {
        assert l[1..] == l[1..|l| - 1] + [l[|l| - 1]];
        RemoveSpacesConcat(l[1..|l| - 1], [l[|l| - 1]]);
        assert RemoveSpaces([l[|l| - 1]]) == [l[|l| - 1]];
      }
    }
  }

  lemma {:induction false} RemoveSpacesConcat(a: string, b: string)
    ensures RemoveSpaces(a + b) == RemoveSpaces(a) + RemoveSpaces(b)
  {
    if a != [] {
      var h := if a[0] == ' ' then [] else [a[0]];
      assert (a + b)[0] == a[0] && (a + b)[1..] == a[1..] + b;
      RemoveSpacesConcat(a[1..], b);
      calc {
        RemoveSpaces(a + b);
        h + RemoveSpaces(a[1..] + b);
        h + (RemoveSpaces(a[1..]) + RemoveSpaces(b));
        (h + RemoveSpaces(a[1..])) + RemoveSpaces(b);
      }
    } else {
      assert a + b == b;
    }
  }

  lemma {:induction false} LowerConcat(a: string, b: string)
    ensures Lower(a + b) == Lower(a) + Lower(b)
  {
    if a != [] {
      assert (a + b)[0] == a[0] && (a + b)[1..] == a[1..] + b;
      LowerConcat(a[1..], b);
    } else {
      assert a + b == b;
    }
  }

  /** Deleting spaces commutes with dropping leading trim characters. */
  lemma {:induction false} RemoveSpacesTrimStart(s: string)
    ensures RemoveSpaces(TrimStart(s)) == TrimStart(RemoveSpaces(s))
  {
    if |s| > 0 && IsTrimSpace(s[0]) {
      RemoveSpacesTrimStart(s[1..]);
      if s[0] == ' ' {
        assert RemoveSpaces(s) == RemoveSpaces(s[1..]);
      } else {
        var r := RemoveSpaces(s);
        assert r == [s[0]] + RemoveSpaces(s[1..]);
        assert r[1..] == RemoveSpaces(s[1..]);
      }
    } else if |s| > 0 {
      assert RemoveSpaces(s)[0] == s[0];
    }
  }

  /** Deleting spaces commutes with dropping trailing trim characters. */
  lemma {:induction false} RemoveSpacesTrimEnd(s: string)
    ensures RemoveSpaces(TrimEnd(s)) == TrimEnd(RemoveSpaces(s))
    decreases |s|
  {
    if |s| > 0 {
      var init, last := s[..|s| - 1], s[|s| - 1];
      assert s == init + [last];
      RemoveSpacesConcat(init, [last]);
      if IsTrimSpace(last) {
        RemoveSpacesTrimEnd(init);
        if last != ' ' {
          var r := RemoveSpaces(s);
          assert RemoveSpaces([last]) == [last];
          assert r == RemoveSpaces(init) + [last];
          assert r[|r| - 1] == last;
          assert r[..|r| - 1] == RemoveSpaces(init);
        } else {
          assert RemoveSpaces([last]) == [];
          assert RemoveSpaces(s) == RemoveSpaces(init);
        }
      } else {
        assert RemoveSpaces([last]) == [last];
      }
    }
  }

  /** Lower-casing commutes with both trims, because it maps trim characters to themselves
      and every other character to a non-trim character. */
  lemma {:induction false} LowerTrimStart(s: string)
    ensures Lower(TrimStart(s)) == TrimStart(Lower(s))
  {
    if |s| > 0 && IsTrimSpace(s[0]) {
      assert Lower(s)[1..] == Lower(s[1..]);
      LowerTrimStart(s[1..]);
    }
  }

  lemma {:induction false} LowerTrimEnd(s: string)
    ensures Lower(TrimEnd(s)) == TrimEnd(Lower(s))
    decreases |s|
  {
    LowerShape(s);
    if |s| > 0 && IsTrimSpace(s[|s| - 1]) {
      var init := s[..|s| - 1];
      assert s == init + [s[|s| - 1]];
      LowerConcat(init, [s[|s| - 1]]);
      LowerShape(init);
      assert Lower(s)[..|s| - 1] == Lower(init);
      LowerTrimEnd(init);
    }
  }

  lemma {:induction false} LowerRemoveSpaces(s: string)
    ensures Lower(RemoveSpaces(s)) == RemoveSpaces(Lower(s))
  {
    if s != [] {
      LowerRemoveSpaces(s[1..]);
      assert Lower(s)[1..] == Lower(s[1..]);
      LowerConcat(if s[0] == ' ' then [] else [s[0]], RemoveSpaces(s[1..]));
    }
  }

  /** Normalisation is trimming applied to the lower-cased, space-free text. */
  lemma NormalizeAsTrim(s: string)
    ensures Normalize(s) == Trim(RemoveSpaces(Lower(s)))
  {
    var t := TrimStart(s);
    LowerTrimStart(s);
    LowerTrimEnd(t);
    RemoveSpacesTrimStart(Lower(s));
    RemoveSpacesTrimEnd(TrimStart(Lower(s)));
  }

  /** Inserting a space anywhere never changes the normalised text. */
  lemma SpaceInsensitive(a: string, b: string)
    ensures Normalize(a + [' '] + b) == Normalize(a + b)
  {
    NormalizeAsTrim(a + [' '] + b);
    NormalizeAsTrim(a + b);
    LowerConcat(a + [' '], b);
    LowerConcat(a, [' ']);
    LowerConcat(a, b);
    assert Lower([' ']) == [' '];
    var la, lb := Lower(a), Lower(b);
    assert Lower(a + [' '] + b) == la + [' '] + lb;
    RemoveSpacesConcat(la + [' '], lb);
    RemoveSpacesConcat(la, [' ']);
    RemoveSpacesConcat(la, lb);
    assert RemoveSpaces([' ']) == [];
    assert RemoveSpaces(la + [' '] + lb) == RemoveSpaces(la + lb);
  }

  /** Texts that differ only in letter case normalise to the same text. */
  lemma CaseInsensitive(s: string, t: string)
    requires Lower(s) == Lower(t)
    ensures Normalize(s) == Normalize(t)
  {
    NormalizeAsTrim(s);
    NormalizeAsTrim(t);
  }

  /** Normalising twice is normalising once. */
  lemma NormalizeIdempotent(s: string)
    ensures Normalize(Normalize(s)) == Normalize(s)
  {
    var n := Normalize(s);
    NormalizeShape(s);
    NormalizeAsTrim(n);
    LowerFixed(n);
    RemoveSpacesFixed(n);
    assert TrimStart(n) == n;
    assert TrimEnd(n) == n;
  }

  lemma {:induction false} LowerFixed(s: string)
    requires forall c :: c in s ==> !IsUpper(c)
    ensures Lower(s) == s
  {
    if s != [] {
      LowerFixed(s[1..]);
      assert s == [s[0]] + s[1..];
    }
  }

  lemma {:induction false} RemoveSpacesFixed(s: string)
    requires ' ' !in s
    ensures RemoveSpaces(s) == s
  {
    if s != [] {
      RemoveSpacesFixed(s[1..]);
      assert s == [s[0]] + s[1..];
    }
  }
}
