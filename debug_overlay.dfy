/**
 * The two pure pieces of the debug overlay (src/core/debug/DebugOverlay.ts): HTML escaping of
 * the error text and the swap-mode toggle button. DOM rendering is not modelled.
 */
module Debug {
  import opened Types
  import opened Scene

  predicate IsSpecial(c: char) {
    c == '&' || c == '<' || c == '>' || c == '"' || c == '\''
  }

  /** The replacement table of `escapeHtml`; any other character stands for itself. */
  function Entity(c: char): (r: string)
    ensures IsSpecial(c) ==> |r| > 1 && r[0] == '&' && r[|r| - 1] == ';'
    ensures !IsSpecial(c) ==> r == [c]
  {
    if c == '&' then "&amp;"
    else if c == '<' then "&lt;"
    else if c == '>' then "&gt;"
    else if c == '"' then "&quot;"
    else if c == '\'' then "&#039;"
    else [c]
  }

  /** `escapeHtml`: every character replaced by its entry in the table, in order. */
  function EscapeHtml(s: string): string {
    if s == [] then [] else Entity(s[0]) + EscapeHtml(s[1..])
  }

  predicate NoSpecial(s: string) {
    forall i :: 0 <= i < |s| ==> !IsSpecial(s[i])
  }

  lemma EscapeTable(c: char)
    ensures EscapeHtml([c]) == Entity(c)
    ensures EscapeHtml("&") == "&amp;" && EscapeHtml("<") == "&lt;" && EscapeHtml(">") == "&gt;"
    ensures EscapeHtml("\"") == "&quot;" && EscapeHtml("'") == "&#039;"
  {
    assert [c][1..] == [];
    assert "&"[1..] == [] && "<"[1..] == [] && ">"[1..] == [] && "\""[1..] == [] && "'"[1..] == [];
  }

  /** Escaping distributes over concatenation. */
  lemma {:induction false} EscapeAppend(a: string, b: string)
    ensures EscapeHtml(a + b) == EscapeHtml(a) + EscapeHtml(b)
    decreases |a|
  {
    if a == [] {
      assert a + b == b;
    } else {
      assert (a + b)[0] == a[0];
      assert (a + b)[1..] == a[1..] + b;
      EscapeAppend(a[1..], b);
    }
  }

  /** The output never contains `<`, `>`, `"` or `'`. */
  lemma {:induction false} EscapeRemovesMarkup(s: string)
    ensures forall i :: 0 <= i < |EscapeHtml(s)| ==> EscapeHtml(s)[i] !in "<>\"'"
    decreases |s|
  {
    if s != [] {
      EscapeRemovesMarkup(s[1..]);
      var e := Entity(s[0]);
      assert forall i :: 0 <= i < |e| ==> e[i] !in "<>\"'";
    }
  }

  /** Escaping never shortens, and keeps the length exactly when nothing needs escaping. */
  lemma {:induction false} EscapeLength(s: string)
    ensures |EscapeHtml(s)| >= |s|
    ensures |EscapeHtml(s)| == |s| <==> NoSpecial(s)
    decreases |s|
  {
    if s != [] {
      EscapeLength(s[1..]);
      if NoSpecial(s[1..]) && !IsSpecial(s[0]) {
        assert forall i :: 1 <= i < |s| ==> s[i] == s[1..][i - 1];
      }
      if NoSpecial(s) {
        assert NoSpecial(s[1..]) by {
          assert forall i :: 0 <= i < |s[1..]| ==> s[1..][i] == s[i + 1];
        }
      }
    }
  }

  /** Text without special characters is copied unchanged. */
  lemma {:induction false} EscapeIdentity(s: string)
    requires NoSpecial(s)
    ensures EscapeHtml(s) == s
    decreases |s|
  {
    if s != [] {
      assert NoSpecial(s[1..]) by {
        assert forall i :: 0 <= i < |s[1..]| ==> s[1..][i] == s[i + 1];
      }
      EscapeIdentity(s[1..]);
      assert [s[0]] + s[1..] == s;
    }
  }

  predicate StartsWith(t: string, p: string) {
    |p| <= |t| && t[..|p|] == p
  }

  /** The first character that `t` encodes, and how many characters encode it. */
  function DecodeOne(t: string): (r: (char, nat))
    requires t != []
    ensures 1 <= r.1 <= |t|
  {
    if StartsWith(t, "&amp;") then ('&', 5)
    else if StartsWith(t, "&lt;") then ('<', 4)
    else if StartsWith(t, "&gt;") then ('>', 4)
    else if StartsWith(t, "&quot;") then ('"', 6)
    else if StartsWith(t, "&#039;") then ('\'', 6)
    else (t[0], 1)
  }

  /** Decoding the five entities back; every other character stands for itself. */
  function Unescape(t: string): string
    decreases |t|
  {
    if t == [] then [] else [DecodeOne(t).0] + Unescape(t[DecodeOne(t).1..])
  }

  lemma PrefixOf(p: string, rest: string)
    ensures StartsWith(p + rest, p) && (p + rest)[|p|..] == rest
  {
    assert (p + rest)[..|p|] == p;
  }

  lemma NotPrefix(t: string, p: string, k: nat)
    requires k < |p| && k < |t| && t[k] != p[k]
    ensures !StartsWith(t, p)
  {
  }

  lemma DecodeEntity(c: char, rest: string)
    ensures DecodeOne(Entity(c) + rest) == (c, |Entity(c)|)
    ensures (Entity(c) + rest)[|Entity(c)|..] == rest
  {
    var t := Entity(c) + rest;
    PrefixOf(Entity(c), rest);
    if c == '&' {
    } else if c == '<' {
      NotPrefix(t, "&amp;", 1);
    } else if c == '>' {
      NotPrefix(t, "&amp;", 1);
      NotPrefix(t, "&lt;", 1);
    } else if c == '"' {
      NotPrefix(t, "&amp;", 1);
      NotPrefix(t, "&lt;", 1);
      NotPrefix(t, "&gt;", 1);
    } else if c == '\'' {
      NotPrefix(t, "&amp;", 1);
      NotPrefix(t, "&lt;", 1);
      NotPrefix(t, "&gt;", 1);
      NotPrefix(t, "&quot;", 1);
    } else {
      assert t[0] == c;
      NotPrefix(t, "&amp;", 0);
      NotPrefix(t, "&lt;", 0);
      NotPrefix(t, "&gt;", 0);
      NotPrefix(t, "&quot;", 0);
      NotPrefix(t, "&#039;", 0);
    }
  }

  /** Escaping loses nothing: the original text is recovered from the escaped one. */
  lemma {:induction false} UnescapeEscape(s: string)
    ensures Unescape(EscapeHtml(s)) == s
    decreases |s|
  {
    if s != [] {
      DecodeEntity(s[0], EscapeHtml(s[1..]));
      UnescapeEscape(s[1..]);
      assert [s[0]] + s[1..] == s;
    }
  }

  /** The toggle button's choice: bar becomes loop and loop becomes bar. */
  function ToggledMode(m: SwapMode): (r: SwapMode)
    ensures r != m
  {
    if m == Bar then Loop else Bar
  }

  lemma ToggleTwice(m: SwapMode)
    ensures ToggledMode(ToggledMode(m)) == m
  {
  }

  class DebugOverlay {
    const store: SceneStore

    constructor (store: SceneStore)
      ensures this.store == store
    {
      this.store := store;
    }

    /** The toggle button's click handler. */
    method OnToggleClick()
      requires store.Valid()
      modifies store
      ensures store.Valid()
      ensures store.swapMode == ToggledMode(old(store.swapMode))
      ensures store.instances == old(store.instances) && store.lastError == old(store.lastError)
    {
      var s := store.GetState();
      store.SetSwapMode(if s.swapMode == Bar then Loop else Bar);
    }
  }
}
