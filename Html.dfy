/** HTML escaping. The worker has two copies of the same single-pass
    replacement, `sanitize` (applied to the query) and `escapeHtml` (applied
    to the reply); both are `Escape` here. */
module Html {

  import opened Js

  /** The characters that are replaced. */
  predicate IsSpecial(c: char)
  {
    c == '<' || c == '>' || c == '&' || c == '"'
  }

  predicate NoSpecials(s: string)
  {
    forall i :: 0 <= i < |s| ==> !IsSpecial(s[i])
  }

  /** The replacement of one character: its entity, or the character itself. */
  function Entity(c: char): (r: string)
    ensures !IsSpecial(c) <==> r == [c]
    ensures IsSpecial(c) ==> |r| >= 4 && r[0] == '&' && r[|r| - 1] == ';'
  {
    match c
    case '<' => "&lt;"
    case '>' => "&gt;"
    case '&' => "&amp;"
    case '"' => "&quot;"
    case _ => [c]
  }

  /** Every character replaced by its entity, left to right, in one pass. */
  function Escape(s: string): string
  {
    if s == [] then [] else Entity(s[0]) + Escape(s[1..])
  }

  /** Escaped text holds no `<`, `>` or `"`. */
  lemma {:induction false} EscapeLeavesNoMarkup(s: string)
    ensures forall i :: 0 <= i < |Escape(s)| ==> Escape(s)[i] !in {'<', '>', '"'}
  {
    if s != [] {
      EscapeLeavesNoMarkup(s[1..]);
      var e, r := Entity(s[0]), Escape(s[1..]);
      assert Escape(s) == e + r;
      forall i | 0 <= i < |e + r| ensures (e + r)[i] !in {'<', '>', '"'} {
        if i >= |e| {
          assert (e + r)[i] == r[i - |e|];
        }
      }
    }
  }

  /** No raw `<script>` tag (nor any other tag) survives escaping. */
  lemma EscapeHasNoTag(s: string, tag: string)
    requires |tag| > 0 && tag[0] == '<'
    ensures !Includes(Escape(s), tag)
  {
    EscapeLeavesNoMarkup(s);
  }

  /** Escaping works character by character: it distributes over concatenation. */
  lemma {:induction false} EscapeAppend(a: string, b: string)
    ensures Escape(a + b) == Escape(a) + Escape(b)
  {
    if a == [] {
      assert a + b == b;
    } else {
      assert (a + b)[1..] == a[1..] + b;
      EscapeAppend(a[1..], b);
    }
  }

  /** Escaping lengthens exactly the strings that hold a special character,
      so it leaves a string unchanged exactly when there is nothing to replace. */
  lemma {:induction false} EscapeFixedPoints(s: string)
    ensures |Escape(s)| >= |s|
    ensures Escape(s) == s <==> NoSpecials(s)
  {
    if s != [] {
      EscapeFixedPoints(s[1..]);
      if !IsSpecial(s[0]) {
        assert Escape(s) == [s[0]] + Escape(s[1..]);
        if Escape(s) == s {
          assert Escape(s[1..]) == s[1..];
        }
        if NoSpecials(s) {
          assert NoSpecials(s[1..]) by {
            forall i | 0 <= i < |s[1..]| ensures !IsSpecial(s[1..][i]) {
              assert s[1..][i] == s[i + 1];
            }
          }
        }
      } else {
        assert |Escape(s)| > |s|;
        assert !NoSpecials(s) by { assert IsSpecial(s[0]); }
      }
    }
  }

  /** The inverse of `Escape`: decodes the four entities, keeps everything else. */
  function Unescape(t: string): string
  {
    if t == [] then []
    else if |t| >= 4 && t[..4] == "&lt;" then ['<'] + Unescape(t[4..])
    else if |t| >= 4 && t[..4] == "&gt;" then ['>'] + Unescape(t[4..])
    else if |t| >= 5 && t[..5] == "&amp;" then ['&'] + Unescape(t[5..])
    else if |t| >= 6 && t[..6] == "&quot;" then ['"'] + Unescape(t[6..])
    else [t[0]] + Unescape(t[1..])
  }

  /** A text that does not start with `&` starts with a kept character. */
  lemma UnescapePlain(t: string)
    requires t != [] && t[0] != '&'
    ensures Unescape(t) == [t[0]] + Unescape(t[1..])
  {
    if |t| >= 4 { assert t[..4][0] == t[0]; }
    if |t| >= 5 { assert t[..5][0] == t[0]; }
    if |t| >= 6 { assert t[..6][0] == t[0]; }
  }

  /** Escaping loses nothing: each special character becomes its entity,
      every other character is kept, in order. */
  lemma {:induction false} UnescapeEscape(s: string)
    ensures Unescape(Escape(s)) == s
  {
    if s != [] {
      var e, r := Entity(s[0]), Escape(s[1..]);
      UnescapeEscape(s[1..]);
      assert Escape(s) == e + r;
      var t := e + r;
      assert t[|e|..] == r;
      assert t[..|e|] == e;
      if s[0] == '<' {
        assert t[..4] == "&lt;";
      } else if s[0] == '>' {
        assert t[..4] == "&gt;";
        assert t[..4] != "&lt;" by { assert t[..4][1] == 'g'; }
      } else if s[0] == '&' {
        assert t[..5] == "&amp;";
        assert t[..4] != "&lt;" && t[..4] != "&gt;" by { assert t[..4][1] == 'a'; }
      } else if s[0] == '"' {
        assert t[..6] == "&quot;";
        assert t[..4] != "&lt;" && t[..4] != "&gt;" by { assert t[..4][1] == 'q'; }
        assert t[..5] != "&amp;" by { assert t[..5][1] == 'q'; }
      } else {
        assert e == [s[0]];
        assert (e + r)[0] == s[0] && (e + r)[1..] == r;
        UnescapePlain(e + r);
        assert [s[0]] + s[1..] == s;
      }
    }
  }

  /** Escaping twice differs from escaping once: the `&` of an entity is
      replaced again. */
  lemma EscapeNotIdempotent()
    ensures Escape("&") == "&amp;"
    ensures Escape(Escape("&")) == "&amp;amp;"
    ensures Escape(Escape("&")) != Escape("&")
  {
    assert Escape("&") == Entity('&') + Escape([]);
    EscapeAppend("&", "amp;");
    EscapeFixedPoints("amp;");
    assert "&amp;" == "&" + "amp;";
    assert NoSpecials("amp;");
  }
}
