// GameSetup (src/app/components/game-setup/game-setup.ts): editing the list
// of player names and building the match configuration from it.

module GameSetupComponent {
  import opened Models

  /** The characters `String.prototype.trim` strips: ECMAScript white space and line terminators. */
  predicate IsWhitespace(c: char) {
    || ('\U{0009}' <= c <= '\U{000D}')
    || c == '\U{0020}' || c == '\U{00A0}' || c == '\U{1680}'
    || ('\U{2000}' <= c <= '\U{200A}')
    || c == '\U{2028}' || c == '\U{2029}' || c == '\U{202F}' || c == '\U{205F}'
    || c == '\U{3000}' || c == '\U{FEFF}'
  }

  predicate AllWhitespace(s: string) {
    forall i :: 0 <= i < |s| ==> IsWhitespace(s[i])
  }

  /** `trimStart`: drop white space from the front. */
  function TrimStart(s: string): string {
    if s != [] && IsWhitespace(s[0]) then TrimStart(s[1..]) else s
  }

  /** `trimEnd`: drop white space from the back. */
  function TrimEnd(s: string): string {
    if s != [] && IsWhitespace(s[|s| - 1]) then TrimEnd(s[..|s| - 1]) else s
  }

  /** `s.trim()`. */
  function Trim(s: string): string {
    TrimEnd(TrimStart(s))
  }

  /** Slices of `s[1..]` seen as slices of `s`. */
  lemma TailSlices<T>(s: seq<T>, k: nat)
    requires k < |s|
    ensures s[1..][|s| - 1 - k..] == s[|s| - k..]
    ensures s[..|s| - k] == [s[0]] + s[1..][..|s| - 1 - k]
  {
  }

  /** Slices of `s[..|s| - 1]` seen as slices of `s`. */
  lemma InitSlices<T>(s: seq<T>, k: nat)
    requires k < |s|
    ensures s[..|s| - 1][..k] == s[..k]
    ensures s[k..] == s[..|s| - 1][k..] + [s[|s| - 1]]
  {
  }

  lemma WhitespaceCons(c: char, rest: string)
    requires IsWhitespace(c) && AllWhitespace(rest)
    ensures AllWhitespace([c] + rest)
  {
    var w := [c] + rest;
    forall i | 0 <= i < |w|
      ensures IsWhitespace(w[i])
    {
      if i > 0 {
        assert w[i] == rest[i - 1];
      }
    }
  }

  lemma WhitespaceSnoc(rest: string, c: char)
    requires AllWhitespace(rest) && IsWhitespace(c)
    ensures AllWhitespace(rest + [c])
  {
    var w := rest + [c];
    forall i | 0 <= i < |w|
      ensures IsWhitespace(w[i])
    {
      if i < |rest| {
        assert w[i] == rest[i];
      }
    }
  }

  /** TrimStart cuts a run of white space from the front and leaves a suffix that does not start with white space. */
  lemma {:induction false} TrimStartCut(s: string)
    ensures var r := TrimStart(s);
      && |r| <= |s| && r == s[|s| - |r|..]
      && AllWhitespace(s[..|s| - |r|])
      && (r == [] || !IsWhitespace(r[0]))
  {
    if s != [] && IsWhitespace(s[0]) {
      var tail := s[1..];
      var r := TrimStart(s);
      assert r == TrimStart(tail);
      TrimStartCut(tail);
      TailSlices(s, |r|);
      WhitespaceCons(s[0], tail[..|tail| - |r|]);
    }
  }

  /**
   * TrimStart removes a run of white space from the front and nothing else:
   * what is left is a suffix that does not start with white space, empty
   * exactly when the input is blank.
   */
  lemma TrimStartSpec(s: string)
    ensures var r := TrimStart(s);
      && |r| <= |s| && r == s[|s| - |r|..]
      && AllWhitespace(s[..|s| - |r|])
      && (r == [] || !IsWhitespace(r[0]))
      && (r == [] <==> AllWhitespace(s))
  {
    TrimStartCut(s);
    var r := TrimStart(s);
    if r == [] {
      assert s[..|s|] == s;
    } else {
      assert s[|s| - |r|] == r[0];
    }
  }

  /** TrimEnd cuts a run of white space from the back and leaves a prefix that does not end with white space. */
  lemma {:induction false} TrimEndCut(s: string)
    ensures var r := TrimEnd(s);
      && |r| <= |s| && r == s[..|r|]
      && AllWhitespace(s[|r|..])
      && (r == [] || !IsWhitespace(r[|r| - 1]))
  {
    if s != [] && IsWhitespace(s[|s| - 1]) {
      var init := s[..|s| - 1];
      var r := TrimEnd(s);
      assert r == TrimEnd(init);
      TrimEndCut(init);
      InitSlices(s, |r|);
      WhitespaceSnoc(init[|r|..], s[|s| - 1]);
    }
  }

  /**
   * TrimEnd removes a run of white space from the back and nothing else:
   * what is left is a prefix that does not end with white space, empty
   * exactly when the input is blank.
   */
  lemma TrimEndSpec(s: string)
    ensures var r := TrimEnd(s);
      && |r| <= |s| && r == s[..|r|]
      && AllWhitespace(s[|r|..])
      && (r == [] || !IsWhitespace(r[|r| - 1]))
      && (r == [] <==> AllWhitespace(s))
  {
    TrimEndCut(s);
    var r := TrimEnd(s);
    if r == [] {
      assert s[0..] == s;
    } else {
      assert s[|r| - 1] == r[|r| - 1];
    }
  }

  /** Cutting `k` elements off the front of the suffix `s[a..]` gives the rest of `s` from `a + k`. */
  lemma SuffixSlices<T>(s: seq<T>, a: nat, k: nat)
    requires a + k <= |s|
    ensures s[a..][..k] == s[a..a + k] && s[a..][k..] == s[a + k..]
  {
  }

  /** `s.trim()` is the slice `s[a..b]` between the white space cut from the front and from the back. */
  lemma TrimSlice(s: string)
    ensures var r := Trim(s);
      var a := |s| - |TrimStart(s)|;
      var b := a + |r|;
      && 0 <= a <= b <= |s|
      && r == s[a..b]
      && AllWhitespace(s[..a]) && AllWhitespace(s[b..])
      && (r == [] || (!IsWhitespace(r[0]) && !IsWhitespace(r[|r| - 1])))
  {
    var t := TrimStart(s);
    TrimStartCut(s);
    TrimEndCut(t);
    var r := TrimEnd(t);
    SuffixSlices(s, |s| - |t|, |r|);
    if r != [] {
      assert r[0] == t[0];
    }
  }

  /** `s.trim()` is empty exactly when `s` is blank. */
  lemma TrimBlank(s: string)
    ensures Trim(s) == [] <==> AllWhitespace(s)
  {
    var t := TrimStart(s);
    TrimStartSpec(s);
    TrimEndSpec(t);
    if t != [] {
      assert !IsWhitespace(t[0]);
      assert !AllWhitespace(t);
    }
  }

  /**
   * `s.trim()` is the slice `s[a..b]` left after cutting white space from
   * both ends: everything before `a` and from `b` on is white space, the
   * result neither starts nor ends with white space, and it is empty exactly
   * when `s` is blank.
   */
  lemma TrimSpec(s: string)
    ensures var r := Trim(s);
      var a := |s| - |TrimStart(s)|;
      var b := a + |r|;
      && 0 <= a <= b <= |s|
      && r == s[a..b]
      && AllWhitespace(s[..a]) && AllWhitespace(s[b..])
      && (r == [] || (!IsWhitespace(r[0]) && !IsWhitespace(r[|r| - 1])))
      && (r == [] <==> AllWhitespace(s))
  {
    TrimSlice(s);
    TrimBlank(s);
  }

  /** Trimming twice is trimming once. */
  lemma TrimIdempotent(s: string)
    ensures Trim(Trim(s)) == Trim(s)
  {
    var r := Trim(s);
    TrimSpec(s);
    if r != [] {
      assert TrimStart(r) == r;
      assert TrimEnd(r) == r;
    }
  }

  predicate Distinct<T(==)>(xs: seq<T>) {
    forall i, j :: 0 <= i < j < |xs| ==> xs[i] != xs[j]
  }

  /** Every entry is its own trim. */
  predicate AllTrimmed(names: seq<string>) {
    forall i :: 0 <= i < |names| ==> Trim(names[i]) == names[i]
  }

  /** `names.filter((_, i) => i !== index)`: the one entry at `index` goes, the rest keep their order. */
  function RemoveAt<T>(xs: seq<T>, index: int): (r: seq<T>)
    ensures 0 <= index < |xs| ==> r == xs[..index] + xs[index + 1..]
    ensures !(0 <= index < |xs|) ==> r == xs
  {
    if xs == [] then []
    else (if index == 0 then [] else [xs[0]]) + RemoveAt(xs[1..], index - 1)
  }

  /** `names.filter(name => name.trim() !== '')`: the entries that are not blank, untrimmed. */
  function NonBlankNames(names: seq<string>): (r: seq<string>)
    ensures |r| <= |names|
    ensures forall k :: 0 <= k < |r| ==> Trim(r[k]) != [] && r[k] in names
    ensures forall i :: 0 <= i < |names| && Trim(names[i]) != [] ==> names[i] in r
    ensures r == [] <==> forall i :: 0 <= i < |names| ==> Trim(names[i]) == []
  {
    if names == [] then []
    else (if Trim(names[0]) != [] then [names[0]] else []) + NonBlankNames(names[1..])
  }

  /** canStartGame: at least one entry is non-blank after trimming. */
  function CanStartGame(names: seq<string>): (ok: bool)
    ensures ok <==> exists i :: 0 <= i < |names| && Trim(names[i]) != []
  {
    |NonBlankNames(names)| >= 1
  }

  /** `names.map(name => name.trim())`. */
  function TrimAll(names: seq<string>): (r: seq<string>)
    ensures |r| == |names|
    ensures forall i :: 0 <= i < |names| ==> r[i] == Trim(names[i])
  {
    if names == [] then [] else [Trim(names[0])] + TrimAll(names[1..])
  }

  /** `names.filter(name => name !== '')`. */
  function DropEmpty(names: seq<string>): (r: seq<string>)
    ensures forall k :: 0 <= k < |r| ==> r[k] != [] && r[k] in names
    ensures forall x :: x in names && x != [] ==> x in r
  {
    if names == [] then []
    else (if names[0] != [] then [names[0]] else []) + DropEmpty(names[1..])
  }

  /** `names.map(name => name.trim()).filter(name => name !== '')`. */
  function ValidNames(names: seq<string>): seq<string> {
    DropEmpty(TrimAll(names))
  }

  /**
   * The names a configuration receives are the non-blank entries in their
   * original order, each trimmed: trimming first and then dropping empty
   * strings is the same as keeping the non-blank entries and trimming each.
   */
  lemma {:induction false} ValidNamesInOrder(names: seq<string>)
    ensures ValidNames(names) == TrimAll(NonBlankNames(names))
  {
    if names != [] {
      var t := TrimAll(names);
      assert t[0] == Trim(names[0]) && t[1..] == TrimAll(names[1..]);
      ValidNamesInOrder(names[1..]);
      var rest := NonBlankNames(names[1..]);
      if Trim(names[0]) != [] {
        var kept := [names[0]] + rest;
        assert NonBlankNames(names) == kept;
        assert kept[0] == names[0] && kept[1..] == rest;
      } else {
        assert NonBlankNames(names) == rest;
      }
    }
  }

  /** Trimmed entries are left as they are, so a trimmed list is its own TrimAll. */
  lemma {:induction false} TrimAllOfTrimmed(names: seq<string>)
    requires AllTrimmed(names)
    ensures TrimAll(names) == names
  {
    if names != [] {
      TrimAllOfTrimmed(names[1..]);
    }
  }

  /** No duplicates among the configured names when the list itself has none and holds trimmed entries. */
  lemma {:induction false} ValidNamesDistinct(names: seq<string>)
    requires Distinct(names) && AllTrimmed(names)
    ensures Distinct(ValidNames(names))
  {
    TrimAllOfTrimmed(names);
    DropEmptyDistinct(names);
  }

  lemma {:induction false} DropEmptyDistinct(names: seq<string>)
    requires Distinct(names)
    ensures Distinct(DropEmpty(names))
  {
    if names != [] {
      DropEmptyDistinct(names[1..]);
      var rest := DropEmpty(names[1..]);
      assert names[0] !in names[1..];
      assert names[0] !in rest;
    }
  }

  /** The list is only edited through addPlayer and removePlayer, which keep it trimmed and duplicate-free. */
  ghost predicate NamesInv(names: seq<string>) {
    Distinct(names) && AllTrimmed(names)
  }

  /** Removing one entry keeps the others pairwise different. */
  lemma RemoveAtDistinct<T>(xs: seq<T>, index: int)
    requires Distinct(xs)
    ensures Distinct(RemoveAt(xs, index))
  {
    if 0 <= index < |xs| {
      var r := RemoveAt(xs, index);
      forall a, b | 0 <= a < b < |r|
        ensures r[a] != r[b]
      {
        var ia := if a < index then a else a + 1;
        var ib := if b < index then b else b + 1;
        assert r[a] == xs[ia] && r[b] == xs[ib];
      }
    }
  }

  /** Removing one entry keeps the others trimmed. */
  lemma RemoveAtTrimmed(names: seq<string>, index: int)
    requires AllTrimmed(names)
    ensures AllTrimmed(RemoveAt(names, index))
  {
    if 0 <= index < |names| {
      var r := RemoveAt(names, index);
      forall k | 0 <= k < |r|
        ensures Trim(r[k]) == r[k]
      {
        assert r[k] == names[if k < index then k else k + 1];
      }
    }
  }

  /** Appending an entry that is not listed yet keeps the entries pairwise different. */
  lemma AppendDistinct<T>(xs: seq<T>, x: T)
    requires Distinct(xs) && x !in xs
    ensures Distinct(xs + [x])
  {
    var r := xs + [x];
    forall a, b | 0 <= a < b < |r|
      ensures r[a] != r[b]
    {
      assert r[a] == xs[a];
    }
  }

  /** Appending a trimmed entry keeps the list trimmed. */
  lemma AppendTrimmed(names: seq<string>, name: string)
    requires AllTrimmed(names) && Trim(name) == name
    ensures AllTrimmed(names + [name])
  {
    var r := names + [name];
    forall k | 0 <= k < |r|
      ensures Trim(r[k]) == r[k]
    {
      if k < |names| {
        assert r[k] == names[k];
      }
    }
  }

  class GameSetup {
    var playerNames: seq<string>
    var selectedGameType: GameType
    var selectedInputMode: InputMode
    var newPlayerName: string

    ghost predicate Valid()
      reads this
    {
      NamesInv(playerNames)
    }

    constructor ()
      ensures playerNames == [""] && newPlayerName == ""
      ensures selectedGameType == 301 && selectedInputMode == Calculating
      ensures Valid()
    {
      playerNames := [""];
      selectedGameType := 301;
      selectedInputMode := Calculating;
      newPlayerName := "";
    }

    /** Append the trimmed input when it is non-empty and new, then clear the input; otherwise change nothing. */
    method AddPlayer()
      modifies this
      ensures var name := Trim(old(newPlayerName));
        if name != [] && name !in old(playerNames) then
          playerNames == old(playerNames) + [name] && newPlayerName == ""
        else
          playerNames == old(playerNames) && newPlayerName == old(newPlayerName)
      ensures selectedGameType == old(selectedGameType) && selectedInputMode == old(selectedInputMode)
      ensures old(Valid()) ==> Valid()
    {
      var name := Trim(newPlayerName);
      if name != [] && name !in playerNames {
        TrimIdempotent(newPlayerName);
        if Distinct(playerNames) {
          AppendDistinct(playerNames, name);
        }
        if AllTrimmed(playerNames) {
          AppendTrimmed(playerNames, name);
        }
        playerNames := playerNames + [name];
        newPlayerName := "";
      }
    }

    method RemovePlayer(index: int)
      modifies this
      ensures playerNames == RemoveAt(old(playerNames), index)
      ensures newPlayerName == old(newPlayerName)
      ensures selectedGameType == old(selectedGameType) && selectedInputMode == old(selectedInputMode)
      ensures old(Valid()) ==> Valid()
    {
      var names := playerNames;
      if Distinct(names) {
        RemoveAtDistinct(names, index);
      }
      if AllTrimmed(names) {
        RemoveAtTrimmed(names, index);
      }
      playerNames := RemoveAt(names, index);
    }

    /**
     * startGame: nothing is emitted unless some name is non-blank; the
     * configuration has the trimmed non-blank names in order, so at least
     * one, and uses the selected game type as starting score.
     */
    method StartGame() returns (config: Option<GameConfig>)
      ensures config.None? <==> !CanStartGame(playerNames)
      ensures config.Some? ==>
                && config.value.playerNames == ValidNames(playerNames)
                && |config.value.playerNames| >= 1
                && (forall k :: 0 <= k < |config.value.playerNames| ==> config.value.playerNames[k] != [])
                && config.value.gameType == config.value.startingScore == selectedGameType
                && config.value.startingScore in {101, 301, 501, 701}
                && config.value.inputMode == selectedInputMode
      ensures config.Some? && Valid() ==> Distinct(config.value.playerNames)
    {
      if !CanStartGame(playerNames) {
        return None;
      }
      var validNames := ValidNames(playerNames);
      ValidNamesInOrder(playerNames);
      if Valid() {
        ValidNamesDistinct(playerNames);
      }
      config := Some(GameConfig(selectedGameType, selectedGameType, validNames, selectedInputMode));
    }
  }
}
