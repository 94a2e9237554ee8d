/**
 * Team-alias resolution: an informal team name typed by a user is turned
 * into a lookup key (stripped, lower-cased, spaces removed) and looked up in
 * a fixed table of the 30 franchises. The repository carries two copies of
 * the table, which differ in one entry.
 */
module Alias {
  import opened Text
  import opened TeamTables

  /** The outcome of a lookup: the canonical name, or Python's KeyError
      carrying the normalised key that was missing. */
  datatype Resolution = Resolved(name: string) | KeyError(key: string)

  /** `name.strip().lower().replace(" ", "")`. */
  function Normalize(name: string): string {
    RemoveAll(Lower(Strip(name)), ' ')
  }

  /** `resolve_alias(name)` against a given table. */
  function Resolve(table: map<string, string>, name: string): (r: Resolution)
    ensures r.Resolved? <==> Normalize(name) in table
    ensures r.Resolved? ==> r.name == table[Normalize(name)] && r.name in table.Values
    ensures r.KeyError? ==> r.key == Normalize(name)
  {
    var key := Normalize(name);
    if key in table then Resolved(table[key]) else KeyError(key)
  }

  // ---------------------------------------------------------------------
  // Facts about the string operations

  lemma LowerConcat(a: string, b: string)
    ensures Lower(a + b) == Lower(a) + Lower(b)
  {
    assert forall i :: 0 <= i < |a + b| ==> Lower(a + b)[i] == (Lower(a) + Lower(b))[i];
  }

  lemma {:induction false} LowerOfLower(s: string)
    requires forall i :: 0 <= i < |s| ==> !IsUpper(s[i])
    ensures Lower(s) == s
  {
    assert forall i :: 0 <= i < |s| ==> Lower(s)[i] == s[i];
  }

  lemma {:induction false} RemoveAllConcat(a: string, b: string, c: char)
    ensures RemoveAll(a + b, c) == RemoveAll(a, c) + RemoveAll(b, c)
  {
    if a != [] {
      assert (a + b)[0] == a[0];
      assert (a + b)[1..] == a[1..] + b;
      RemoveAllConcat(a[1..], b, c);
    } else {
      assert a + b == b;
    }
  }

  lemma {:induction false} RemoveAllAbsent(s: string, c: char)
    requires c !in s
    ensures RemoveAll(s, c) == s
  {
    if s != [] {
      RemoveAllAbsent(s[1..], c);
    }
  }

  /** Removing a character keeps a first or last character that is not it. */
  lemma RemoveAllEnds(s: string, c: char)
    ensures s != [] && s[0] != c ==> RemoveAll(s, c) != [] && RemoveAll(s, c)[0] == s[0]
    ensures s != [] && s[|s| - 1] != c ==>
      RemoveAll(s, c) != [] && RemoveAll(s, c)[|RemoveAll(s, c)| - 1] == s[|s| - 1]
  {
    if s != [] {
      assert s == s[..|s| - 1] + [s[|s| - 1]];
      RemoveAllConcat(s[..|s| - 1], [s[|s| - 1]], c);
    }
  }

  lemma {:induction false} LowerStripLeft(s: string)
    ensures Lower(StripLeft(s)) == StripLeft(Lower(s))
    decreases |s|
  {
    if s != [] {
      assert Lower(s)[1..] == Lower(s[1..]);
      if IsSpace(s[0]) {
        LowerStripLeft(s[1..]);
      }
    }
  }

  lemma {:induction false} LowerStripRight(s: string)
    ensures Lower(StripRight(s)) == StripRight(Lower(s))
    decreases |s|
  {
    if s != [] {
      var n := |s|;
      var l := Lower(s);
      assert l[n - 1] == LowerChar(s[n - 1]);
      if IsSpace(s[n - 1]) {
        assert l[..n - 1] == Lower(s[..n - 1]);
        assert StripRight(s) == StripRight(s[..n - 1]);
        assert StripRight(l) == StripRight(l[..n - 1]);
        LowerStripRight(s[..n - 1]);
      } else {
        assert StripRight(s) == s;
        assert StripRight(l) == l;
      }
    }
  }

  lemma LowerStrip(s: string)
    ensures Lower(Strip(s)) == Strip(Lower(s))
  {
    LowerStripRight(StripLeft(s));
    LowerStripLeft(s);
  }

  lemma {:induction false} RemoveSpacesStripLeft(s: string)
    ensures RemoveAll(StripLeft(s), ' ') == StripLeft(RemoveAll(s, ' '))
    decreases |s|
  {
    if s != [] {
      var rest := RemoveAll(s[1..], ' ');
      if IsSpace(s[0]) {
        RemoveSpacesStripLeft(s[1..]);
        if s[0] == ' ' {
          assert RemoveAll(s, ' ') == rest;
        } else {
          assert RemoveAll(s, ' ') == [s[0]] + rest;
          assert ([s[0]] + rest)[0] == s[0];
          assert ([s[0]] + rest)[1..] == rest;
        }
      } else {
        assert RemoveAll(s, ' ') == [s[0]] + rest;
        assert ([s[0]] + rest)[0] == s[0];
      }
    }
  }

  lemma {:induction false} RemoveSpacesStripRight(s: string)
    ensures RemoveAll(StripRight(s), ' ') == StripRight(RemoveAll(s, ' '))
    decreases |s|
  {
    if s != [] {
      var n := |s|;
      var front, last := s[..n - 1], s[n - 1];
      assert s == front + [last];
      RemoveAllConcat(front, [last], ' ');
      assert [last][1..] == [];
      var r := RemoveAll(front, ' ');
      if IsSpace(last) {
        RemoveSpacesStripRight(front);
        if last == ' ' {
          assert RemoveAll(s, ' ') == r + [];
          assert r + [] == r;
        } else {
          assert RemoveAll(s, ' ') == r + [last];
          assert (r + [last])[|r|] == last;
          assert (r + [last])[..|r|] == r;
        }
      } else {
        assert RemoveAll(s, ' ') == r + [last];
        assert (r + [last])[|r|] == last;
      }
    }
  }

  /** The key can equally be computed by lower-casing, deleting spaces and
      then stripping. */
  lemma NormalizeReordered(s: string)
    ensures Normalize(s) == Strip(RemoveAll(Lower(s), ' '))
  {
    LowerStrip(s);
    var l := Lower(s);
    RemoveSpacesStripLeft(l);
    RemoveSpacesStripRight(StripLeft(l));
  }

  lemma {:induction false} StripLeftSpaces(p: string, t: string)
    requires forall i :: 0 <= i < |p| ==> IsSpace(p[i])
    ensures StripLeft(p + t) == StripLeft(t)
    decreases |p|
  {
    if p != [] {
      assert (p + t)[0] == p[0];
      assert (p + t)[1..] == p[1..] + t;
      StripLeftSpaces(p[1..], t);
    } else {
      assert p + t == t;
    }
  }

  lemma {:induction false} StripRightSpaces(t: string, p: string)
    requires forall i :: 0 <= i < |p| ==> IsSpace(p[i])
    ensures StripRight(t + p) == StripRight(t)
    decreases |p|
  {
    if p != [] {
      var n := |p|;
      assert (t + p)[|t + p| - 1] == p[n - 1];
      assert (t + p)[..|t + p| - 1] == t + p[..n - 1];
      StripRightSpaces(t, p[..n - 1]);
    } else {
      assert t + p == t;
    }
  }

  lemma {:induction false} StripLeftAppend(t: string, p: string)
    ensures StripLeft(t + p) == if StripLeft(t) != [] then StripLeft(t) + p else StripLeft(p)
    decreases |t|
  {
    if t != [] {
      assert (t + p)[0] == t[0];
      assert (t + p)[1..] == t[1..] + p;
      if IsSpace(t[0]) {
        StripLeftAppend(t[1..], p);
      }
    } else {
      assert t + p == p;
    }
  }

  // ---------------------------------------------------------------------
  // Properties of the lookup key

  /** The key has no space, no upper-case letter and no whitespace at
      either end. */
  lemma KeyShape(name: string)
    ensures ' ' !in Normalize(name)
    ensures forall i :: 0 <= i < |Normalize(name)| ==> !IsUpper(Normalize(name)[i])
    ensures Normalize(name) != [] ==>
      !IsSpace(Normalize(name)[0]) && !IsSpace(Normalize(name)[|Normalize(name)| - 1])
  {
    var t := Strip(name);
    var l := Lower(t);
    var k := Normalize(name);
    RemoveAllEnds(l, ' ');
    forall i | 0 <= i < |k| ensures !IsUpper(k[i]) {
      assert k[i] in l;
    }
    if k != [] {
      assert l != [];
      assert !IsSpace(l[0]) && !IsSpace(l[|l| - 1]);
    }
  }

  /** Normalising a key that is already normalised changes nothing. */
  lemma KeyIdempotent(name: string)
    ensures Normalize(Normalize(name)) == Normalize(name)
  {
    var k := Normalize(name);
    KeyShape(name);
    assert StripLeft(k) == k;
    assert StripRight(k) == k;
    LowerOfLower(k);
    RemoveAllAbsent(k, ' ');
  }

  /** Two spellings that differ only in letter case give the same key. */
  lemma KeyIgnoresCase(a: string, b: string)
    requires Lower(a) == Lower(b)
    ensures Normalize(a) == Normalize(b)
  {
    NormalizeReordered(a);
    NormalizeReordered(b);
  }

  lemma LowerSpaced(a: string, b: string)
    ensures Lower(a + " " + b) == Lower(a) + " " + Lower(b)
  {
    LowerConcat(a, " ");
    LowerConcat(a + " ", b);
  }

  lemma RemoveSpacesSpaced(x: string, y: string)
    ensures RemoveAll(x + " " + y, ' ') == RemoveAll(x + y, ' ')
  {
    RemoveAllConcat(x + " ", y, ' ');
    RemoveAllConcat(x, " ", ' ');
    RemoveAllConcat(x, y, ' ');
    assert RemoveAll(" ", ' ') == [];
    assert RemoveAll(x, ' ') + [] == RemoveAll(x, ' ');
  }

  /** A space inside a name does not change the key. */
  lemma KeyIgnoresSpaces(a: string, b: string)
    ensures Normalize(a + " " + b) == Normalize(a + b)
  {
    LowerSpaced(a, b);
    LowerConcat(a, b);
    RemoveSpacesSpaced(Lower(a), Lower(b));
    NormalizeReordered(a + " " + b);
    NormalizeReordered(a + b);
  }

  /** Whitespace before and after a name does not change the key. */
  lemma KeyIgnoresPadding(before: string, name: string, after: string)
    requires forall i :: 0 <= i < |before| ==> IsSpace(before[i])
    requires forall i :: 0 <= i < |after| ==> IsSpace(after[i])
    ensures Normalize(before + name + after) == Normalize(name)
  {
    assert before + name + after == before + (name + after);
    StripLeftSpaces(before, name + after);
    StripLeftAppend(name, after);
    if StripLeft(name) != [] {
      StripRightSpaces(StripLeft(name), after);
    } else {
      StripLeftSpaces(after, []);
      assert after + [] == after;
    }
  }

  /** Distinct keys resolve to distinct clubs: when two names resolve to the
      same club, their keys were equal. */
  lemma ResolveSeparatesKeys(a: string, b: string)
    requires Resolve(TeamNameMap, a).Resolved? && Resolve(TeamNameMap, a) == Resolve(TeamNameMap, b)
    ensures Normalize(a) == Normalize(b)
  {
    TeamNameMapInjective();
  }
}
