/** The loops of the text helpers every handler uses, proved against the functions that specify them. */
module Common {
  import opened Lists
  import opened WorldModel

  /** `join_from`: the tokens from `start` on, joined by single spaces. */
  method JoinTokens(tokens: seq<string>, start: nat) returns (out: string)
    ensures out == JoinFrom(tokens, start)
  {
    out := "";
    var i := start;
    while i < |tokens|
      invariant start <= i && (i <= |tokens| || i == start)
      invariant JoinFrom(tokens, start) == out + (if start < i < |tokens| then " " else "") + JoinFrom(tokens, i)
    {
      if i > start {
        out := out + " ";
      }
      out := out + tokens[i];
      i := i + 1;
    }
  }

  /** The search loops of `resolve_item_ref_locked` and `resolve_npc_ref_locked`: ids first, then names. */
  method ResolveRef(candidates: seq<string>, names: map<string, string>, ref: string) returns (id: string)
    ensures id == Resolve(candidates, names, ref)
  {
    for i := 0 to |candidates|
      invariant ref !in candidates[..i]
    {
      if candidates[i] == ref { return ref; }
    }
    var lower := ToLower(ref);
    for i := 0 to |candidates|
      invariant FirstNamed(candidates, names, ref) == FirstNamed(candidates[i..], names, ref)
    {
      var c := candidates[i];
      if c in names && ToLower(names[c]) == lower { return c; }
      assert candidates[i..][1..] == candidates[i + 1..];
    }
    return "";
  }

  /** The erase/remove idiom on a vector of ids. */
  method EraseAll(xs: seq<string>, x: string) returns (kept: seq<string>)
    ensures kept == Without(xs, x)
  {
    kept := [];
    for i := 0 to |xs|
      invariant kept == Without(xs[..i], x)
    {
      WithoutAppend(xs[..i], xs[i], x);
      assert xs[..i + 1] == xs[..i] + [xs[i]];
      if xs[i] != x {
        kept := kept + [xs[i]];
      }
    }
    assert xs[..|xs|] == xs;
  }

  /** The keys of an unordered map in the order in which it is iterated, whichever that is. */
  method KeysInOrder(keys: set<string>) returns (order: seq<string>)
    ensures IsOrderOf(order, keys)
  {
    order := [];
    var rest := keys;
    while rest != {}
      invariant rest <= keys && NoDuplicates(order)
      invariant forall i :: 0 <= i < |order| ==> order[i] in keys && order[i] !in rest
      invariant forall k :: k in keys ==> k in rest || k in order
      decreases |rest|
    {
      var k :| k in rest;
      AppendKeepsDistinct(order, k);
      order, rest := order + [k], rest - {k};
    }
  }

  /** One character of a JSON string as the server writes it. */
  function EscapedChar(c: char): string {
    if c == '\n' then "\\n" else if c == '"' || c == '\\' then ['\\', c] else [c]
  }

  function Escape(s: string): string {
    if s == "" then "" else EscapedChar(s[0]) + Escape(s[1..])
  }

  lemma EscapeStep(s: string, i: nat)
    requires i < |s|
    ensures Escape(s[i..]) == EscapedChar(s[i]) + Escape(s[i + 1..])
  {
    assert s[i..][1..] == s[i + 1..];
  }

  lemma EscapeEnds(s: string)
    ensures s[0..] == s && Escape(s[|s|..]) == ""
  {
  }

  /** `json_escape`: quotes and backslashes get a backslash, line feeds become `\n`. */
  method JsonEscape(s: string) returns (out: string)
    ensures out == Escape(s)
  {
    hide Escape;
    out := "";
    EscapeEnds(s);
    for i := 0 to |s|
      invariant Escape(s) == out + Escape(s[i..])
    {
      var c := s[i];
      EscapeStep(s, i);
      ghost var before := out;
      if c == '"' || c == '\\' {
        out := out + ['\\'];
      }
      if c == '\n' {
        out := out + "\\n";
      } else {
        out := out + [c];
      }
      assert out == before + EscapedChar(c);
    }
  }
}
