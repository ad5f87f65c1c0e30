/** Which texts name an id: case, hyphens and braces do not matter, everything else does. */
module UuidTexts {
  import opened Common
  import opened Ledger

  predicate IsHyphen(i: int) { i == 8 || i == 13 || i == 18 || i == 23 }

  predicate IsDigit(c: char) { '0' <= c <= '9' || 'a' <= c <= 'f' }

  /** The form in which the database writes an id: small digits in groups of 8, 4, 4, 4 and 12. */
  predicate Canonical(id: Uuid) { forall i :: 0 <= i < 36 ==> if IsHyphen(i) then id[i] == '-' else IsDigit(id[i]) }

  lemma {:induction false} DigitsConcat(a: string, b: string)
    ensures HexDigits(a + b) == HexDigits(a) + HexDigits(b)
  {
    if a == "" {
      assert a + b == b;
    } else {
      assert (a + b)[0] == a[0] && (a + b)[1..] == a[1..] + b;
      DigitsConcat(a[1..], b);
    }
  }

  lemma {:induction false} DigitsOfDigits(s: string)
    requires forall i :: 0 <= i < |s| ==> IsDigit(s[i])
    ensures HexDigits(s) == s
  {
    if s != "" {
      DigitsOfDigits(s[1..]);
      assert s == [s[0]] + s[1..];
    }
  }

  lemma DigitsOfGroup(s: string, rest: string)
    requires forall i :: 0 <= i < |s| ==> IsDigit(s[i])
    ensures HexDigits(s + "-" + rest) == s + HexDigits(rest)
  {
    DigitsConcat(s + "-", rest);
    DigitsConcat(s, "-");
    DigitsOfDigits(s);
    assert HexDigits("-") == HexDigits("") == "";
  }

  lemma Groups(id: Uuid)
    requires Canonical(id)
    ensures id == id[..8] + "-" + id[9..] && id[9..] == id[9..13] + "-" + id[14..]
    ensures id[14..] == id[14..18] + "-" + id[19..] && id[19..] == id[19..23] + "-" + id[24..]
  {
  }

  /** The digits of a canonical id are its groups. */
  lemma CanonicalDigits(id: Uuid)
    requires Canonical(id)
    ensures HexDigits(id) == id[..8] + (id[9..13] + (id[14..18] + (id[19..23] + id[24..])))
  {
    Groups(id);
    DigitsOfGroup(id[..8], id[9..]);
    DigitsOfGroup(id[9..13], id[14..]);
    DigitsOfGroup(id[14..18], id[19..]);
    DigitsOfGroup(id[19..23], id[24..]);
    DigitsOfDigits(id[24..]);
  }

  /** An id in canonical form names itself, and only canonical ids are ever named. */
  lemma CanonicalNamesItself(id: Uuid)
    requires Canonical(id)
    ensures ParseUuid(id) == Some(id)
  {
    CanonicalDigits(id);
    var h := HexDigits(id);
    assert h[..8] == id[..8] && h[8..12] == id[9..13] && h[12..16] == id[14..18];
    assert h[16..20] == id[19..23] && h[20..] == id[24..];
    assert id == id[..8] + "-" + id[9..13] + "-" + id[14..18] + "-" + id[19..23] + "-" + id[24..];
  }

  lemma NamedIsCanonical(text: string)
    ensures ParseUuid(text).Some? ==> Canonical(ParseUuid(text).value)
  {
  }

  /** A hyphen or brace more changes nothing, nor does the case of a letter. */
  lemma SpellingsAgree(a: string, c: char, b: string)
    ensures c in "-{}" ==> ParseUuid(a + [c] + b) == ParseUuid(a + b)
    ensures 'A' <= c <= 'F' ==> ParseUuid(a + [c] + b) == ParseUuid(a + [c + 32 as char] + b)
  {
    var d := Lower(c);
    DigitsConcat(a, b);
    DigitsConcat(a + [c], b);
    DigitsConcat(a, [c]);
    DigitsConcat(a + [d], b);
    DigitsConcat(a, [d]);
    assert HexDigits([c]) == if c in "-{}" then "" else [d];
    assert 'A' <= c <= 'F' ==> HexDigits([d]) == [d];
    assert HexDigits(a + [c] + b) == HexDigits(a) + HexDigits([c]) + HexDigits(b);
    assert c in "-{}" ==> HexDigits(a + [c] + b) == HexDigits(a + b);
  }

  lemma {:induction false} DigitsKeep(text: string, i: nat)
    requires i < |text| && text[i] !in "-{}"
    ensures exists k :: 0 <= k < |HexDigits(text)| && HexDigits(text)[k] == Lower(text[i])
  {
    if i == 0 {
      assert HexDigits(text)[0] == Lower(text[0]);
    } else {
      DigitsKeep(text[1..], i - 1);
      var k :| 0 <= k < |HexDigits(text[1..])| && HexDigits(text[1..])[k] == Lower(text[1..][i - 1]);
      var more := |HexDigits(text)| - |HexDigits(text[1..])|;
      assert HexDigits(text)[more + k] == HexDigits(text[1..])[k];
    }
  }

  /** A text with any other character names nothing. */
  lemma StrangersNameNothing(text: string, i: nat)
    requires i < |text| && text[i] !in "-{}"
    requires !IsDigit(text[i]) && !('A' <= text[i] <= 'F')
    ensures ParseUuid(text) == None
  {
    DigitsKeep(text, i);
  }
}
