/** Flags: normalising, hashing, and checking a submission. */
module Flags {
  import opened Common
  import opened Text

  /** SHA-256 of a text. The model takes it as a parameter and assumes nothing about it here. */
  type Sha = string -> seq<Byte>

  function Normalize(v: string, caseSensitive: bool): string {
    if caseSensitive then TrimSpace(v) else ToLower(TrimSpace(v))
  }

  function Hash(sha: Sha, v: string, caseSensitive: bool): seq<Byte> { sha(Normalize(v, caseSensitive)) }

  /** A stored flag. */
  datatype Spec = Spec(hash: seq<Byte>, caseSensitive: bool)

  ghost predicate Verifies(sha: Sha, submission: string, specs: seq<Spec>) {
    exists i :: 0 <= i < |specs| && specs[i].hash == Hash(sha, submission, specs[i].caseSensitive)
  }

  method Verify(sha: Sha, submission: string, specs: seq<Spec>) returns (ok: bool)
    ensures ok <==> Verifies(sha, submission, specs)
  {
    var cs, ci := Hash(sha, submission, true), Hash(sha, submission, false);
    ok := false;
    for n := 0 to |specs|
      invariant ok <==> Verifies(sha, submission, specs[..n])
    {
      assert specs[..n + 1] == specs[..n] + [specs[n]];
      var want := cs;
      if !specs[n].caseSensitive {
        want := ci;
      }
      if specs[n].hash == want {
        assert specs[..n + 1][n].hash == Hash(sha, submission, specs[..n + 1][n].caseSensitive);
        ok := true;
      }
      assert Verifies(sha, submission, specs[..n]) ==> Verifies(sha, submission, specs[..n + 1]) by {
        if Verifies(sha, submission, specs[..n]) {
          var i :| 0 <= i < n && specs[..n][i].hash == Hash(sha, submission, specs[..n][i].caseSensitive);
          assert specs[..n + 1][i] == specs[..n][i];
        }
      }
      assert Verifies(sha, submission, specs[..n + 1]) ==>
             Verifies(sha, submission, specs[..n]) || specs[n].hash == want by {
        if Verifies(sha, submission, specs[..n + 1]) {
          var i :| 0 <= i <= n && specs[..n + 1][i].hash == Hash(sha, submission, specs[..n + 1][i].caseSensitive);
          assert i < n ==> specs[..n + 1][i] == specs[..n][i];
        }
      }
    }
    assert specs[..|specs|] == specs;
  }

  // ---------------------------------------------------------------- what normalising means

  predicate Padding(s: string) { forall i :: 0 <= i < |s| ==> IsSpace(s[i]) }

  predicate Bare(s: string) { s == "" || (!IsSpace(s[0]) && !IsSpace(s[|s| - 1])) }

  lemma {:induction false} TrimLeftIs(s: string) returns (left: string)
    ensures Padding(left) && s == left + TrimLeft(s)
    ensures TrimLeft(s) == "" || !IsSpace(TrimLeft(s)[0])
  {
    left := "";
    if s != "" && IsSpace(s[0]) {
      var l := TrimLeftIs(s[1..]);
      left := [s[0]] + l;
      assert s == [s[0]] + s[1..];
    }
  }

  lemma {:induction false} TrimRightIs(s: string) returns (right: string)
    ensures Padding(right) && s == TrimRight(s) + right
    ensures TrimRight(s) == "" || !IsSpace(TrimRight(s)[|TrimRight(s)| - 1])
  {
    if s == "" || !IsSpace(s[|s| - 1]) {
      right := "";
      assert TrimRight(s) == s == s + "";
    } else {
      var t, c := s[..|s| - 1], s[|s| - 1];
      var r := TrimRightIs(t);
      right := r + [c];
      assert TrimRight(s) == TrimRight(t);
      assert s == t + [c] == TrimRight(t) + r + [c] == TrimRight(t) + (r + [c]);
    }
  }

  /** Trimming splits the text into padding, a core without padding at either end, and padding. */
  lemma TrimSpaceIs(s: string) returns (left: string, right: string)
    ensures Padding(left) && Padding(right) && s == left + TrimSpace(s) + right && Bare(TrimSpace(s))
  {
    left := TrimLeftIs(s);
    right := TrimRightIs(TrimLeft(s));
    assert s == left + (TrimSpace(s) + right) == left + TrimSpace(s) + right;
    if TrimSpace(s) != "" {
      assert TrimLeft(s)[0] == TrimSpace(s)[0];
    }
  }

  lemma {:induction false} TrimLeftDrops(left: string, s: string)
    requires Padding(left) && (s == "" || !IsSpace(s[0]))
    ensures TrimLeft(left + s) == s
  {
    if left == "" {
      assert left + s == s;
    } else {
      assert (left + s)[1..] == left[1..] + s && (left + s)[0] == left[0];
      TrimLeftDrops(left[1..], s);
    }
  }

  lemma {:induction false} TrimRightDrops(s: string, right: string)
    requires Padding(right) && (s == "" || !IsSpace(s[|s| - 1]))
    ensures TrimRight(s + right) == s
  {
    if right == "" {
      assert s + right == s;
    } else {
      var n := |right| - 1;
      assert (s + right)[..|s + right| - 1] == s + right[..n] && (s + right)[|s + right| - 1] == right[n];
      TrimRightDrops(s, right[..n]);
    }
  }

  /** … and any such splitting is the one trimming finds: padding never matters. */
  lemma TrimSpaceOnly(left: string, core: string, right: string)
    requires Padding(left) && Padding(right) && Bare(core)
    ensures TrimSpace(left + core + right) == core
  {
    assert left + core + right == left + (core + right);
    if core == "" {
      assert core + right == right && Padding(left + right);
      TrimLeftDrops(left + right, "");
      assert left + right + "" == left + right;
    } else {
      TrimLeftDrops(left, core + right);
      TrimRightDrops(core, right);
    }
  }

  lemma BareIsTrimmed(s: string)
    ensures Bare(s) <==> TrimSpace(s) == s
  {
    if Bare(s) {
      assert "" + s + "" == s;
      TrimSpaceOnly("", s, "");
    } else {
      var l, r := TrimSpaceIs(s);
    }
  }

  lemma LowerBare(s: string)
    requires Bare(s)
    ensures Bare(ToLower(s))
  {
    if s != "" {
      LowerSpace(s[0]);
      LowerSpace(s[|s| - 1]);
    }
  }

  lemma LowerSpace(c: char)
    ensures IsSpace(Lower(c)) <==> IsSpace(c)
  {
    if 'A' <= c <= 'Z' {
      assert 'a' <= Lower(c) <= 'z';
    }
  }

  /** Submitting the stored form of a flag, with any padding around it, is submitting the flag. */
  lemma NormalizeAbsorbs(left: string, v: string, right: string, caseSensitive: bool)
    requires Padding(left) && Padding(right)
    ensures Normalize(left + Normalize(v, caseSensitive) + right, caseSensitive) == Normalize(v, caseSensitive)
  {
    var l, r := TrimSpaceIs(v);
    var core := Normalize(v, caseSensitive);
    assert Bare(core) by {
      LowerBare(TrimSpace(v));
    }
    TrimSpaceOnly(left, core, right);
    assert ToLower(ToLower(v)) == ToLower(v);
    assert ToLower(ToLower(TrimSpace(v))) == ToLower(TrimSpace(v));
  }

  // ---------------------------------------------------------------- which forms are equal

  /** The text without the padding around it. */
  ghost predicate IsCore(text: string, core: string) {
    Bare(core) && exists left, right :: Padding(left) && Padding(right) && text == left + core + right
  }

  lemma CoreIsTrimmed(text: string, core: string)
    ensures IsCore(text, core) <==> core == TrimSpace(text)
  {
    if IsCore(text, core) {
      var left, right :| Padding(left) && Padding(right) && text == left + core + right;
      TrimSpaceOnly(left, core, right);
    }
    var left, right := TrimSpaceIs(text);
  }

  /** One ASCII letter in two cases, or the same character. */
  predicate Twins(c: char, d: char) {
    c == d || ('A' <= c <= 'Z' && d as int == c as int + 32) || ('A' <= d <= 'Z' && c as int == d as int + 32)
  }

  predicate SameLetters(a: string, b: string) { |a| == |b| && forall i :: 0 <= i < |a| ==> Twins(a[i], b[i]) }

  lemma LowerTwins(c: char, d: char)
    ensures Lower(c) == Lower(d) <==> Twins(c, d)
  {
  }

  lemma LowerSameLetters(a: string, b: string)
    ensures ToLower(a) == ToLower(b) <==> SameLetters(a, b)
  {
    if |a| == |b| {
      forall i | 0 <= i < |a| ensures ToLower(a)[i] == ToLower(b)[i] <==> Twins(a[i], b[i]) {
        LowerTwins(a[i], b[i]);
      }
    }
  }

  /** A case-sensitive flag is its text without padding; any other is that text in small letters. */
  lemma FormIs(text: string, core: string)
    requires IsCore(text, core)
    ensures Normalize(text, true) == core
    ensures var low := Normalize(text, false);
            |low| == |core| && forall i :: 0 <= i < |core| ==>
              low[i] == if 'A' <= core[i] <= 'Z' then core[i] + 32 as char else core[i]
  {
    CoreIsTrimmed(text, core);
  }

  /** Two texts have one form when their cores agree: exactly where case counts, letter by letter where it does not. */
  lemma SameForm(v: string, core: string, w: string, other: string)
    requires IsCore(v, core) && IsCore(w, other)
    ensures Normalize(v, true) == Normalize(w, true) <==> core == other
    ensures Normalize(v, false) == Normalize(w, false) <==> SameLetters(core, other)
  {
    CoreIsTrimmed(v, core);
    CoreIsTrimmed(w, other);
    LowerSameLetters(core, other);
  }

  /** A submission passes when some flag's digest is that of its core, in small letters where case is ignored. */
  lemma VerifiesCores(sha: Sha, submission: string, core: string, low: string, specs: seq<Spec>)
    requires IsCore(submission, core) && |low| == |core|
    requires forall i :: 0 <= i < |core| ==> low[i] == if 'A' <= core[i] <= 'Z' then core[i] + 32 as char else core[i]
    ensures Verifies(sha, submission, specs) <==>
            exists i :: 0 <= i < |specs| && specs[i].hash == sha(if specs[i].caseSensitive then core else low)
  {
    FormIs(submission, core);
    assert low == Normalize(submission, false);
  }
}
