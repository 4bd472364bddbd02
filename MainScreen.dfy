/** The main screen's address check: once loading finishes, portrait is
    locked when the address now shown and the entry address agree up to
    trailing slashes. Strings are sequences of characters. */
module MainScreen {
  import opened Basics

  /** `s` with its trailing '/' characters removed, keeping at least one
      character: the specification of `Normalized`. */
  function Trimmed(s: string): string
    decreases |s|
  {
    if |s| > 1 && s[|s| - 1] == '/' then Trimmed(s[..|s| - 1]) else s
  }

  /** `v` is `s` less a run of trailing slashes, and `v` cannot lose
      another one. */
  ghost predicate TrimOf(v: string, s: string)
  {
    && v <= s
    && (forall i :: |v| <= i < |s| ==> s[i] == '/')
    && (|v| > 1 ==> v[|v| - 1] != '/')
    && (|s| > 0 ==> |v| > 0)
  }

  /** `normalized`: drop the last character while more than one is left
      and the last is '/'. */
  method Normalized(s: string) returns (v: string)
    ensures TrimOf(v, s)
    ensures v == Trimmed(s)
  {
    v := s;
    while |v| > 1 && v[|v| - 1] == '/'
      invariant v <= s && Trimmed(v) == Trimmed(s)
      invariant forall i :: |v| <= i < |s| ==> s[i] == '/'
      invariant |s| > 0 ==> |v| > 0
      decreases |v|
    {
      v := v[..|v| - 1];
    }
  }

  /** `Trimmed` meets its description, and only one string does. */
  lemma {:induction false} TrimmedIsTrimOf(s: string)
    ensures TrimOf(Trimmed(s), s)
    decreases |s|
  {
    if |s| > 1 && s[|s| - 1] == '/' {
      var p := s[..|s| - 1];
      TrimmedIsTrimOf(p);
      assert Trimmed(s) == Trimmed(p);
      forall i | |Trimmed(p)| <= i < |s|
        ensures s[i] == '/'
      {
        if i < |p| {
          assert s[i] == p[i];
        }
      }
    }
  }

  lemma TrimOfIsUnique(v: string, w: string, s: string)
    requires TrimOf(v, s) && TrimOf(w, s)
    ensures v == w
  {
    if |v| < |w| {
      assert false;
    } else if |w| < |v| {
      assert false;
    }
  }

  /** The result ends in '/' only when it is exactly "/"; "" and "/" are
      kept as they are; normalising twice is normalising once. */
  lemma TrimmedShape(s: string)
    ensures Trimmed(s) <= s
    ensures |Trimmed(s)| > 0 && Trimmed(s)[|Trimmed(s)| - 1] == '/' ==> Trimmed(s) == "/"
    ensures s == "" || s == "/" ==> Trimmed(s) == s
    ensures Trimmed(Trimmed(s)) == Trimmed(s)
  {
    TrimmedIsTrimOf(s);
    var v := Trimmed(s);
    if |v| > 0 && v[|v| - 1] == '/' {
      assert |v| == 1;
      assert v == "/" by {
        assert v[0] == '/';
      }
    }
  }

  /** One more trailing slash on a non-empty address normalises away. */
  lemma TrailingSlashIgnored(s: string)
    requires |s| > 0
    ensures Trimmed(s + "/") == Trimmed(s)
  {
    assert (s + "/")[..|s + "/"| - 1] == s;
  }

  /** The check made when loading finishes: is there a current address, and
      does it normalise to the same string as the entry address? */
  predicate LocksPortrait(current: Option<string>, base: string)
  {
    current.Some? && Trimmed(current.value) == Trimmed(base)
  }

  method FinishLoading(current: Option<string>, base: string) returns (lock: bool)
    ensures lock <==> LocksPortrait(current, base)
    ensures lock ==> current.Some?
  {
    if current.None? {
      return false;
    }
    var a := Normalized(current.value);
    var b := Normalized(base);
    lock := a == b;
  }

  /** The entry address itself, and it with one more slash, both lock
      portrait; no current address never does. */
  lemma LockExamples(base: string)
    requires |base| > 0
    ensures LocksPortrait(Some(base), base)
    ensures LocksPortrait(Some(base + "/"), base)
    ensures !LocksPortrait(None, base)
  {
    TrailingSlashIgnored(base);
  }
}
