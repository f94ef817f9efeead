/**
 * The application state shared by every page: the saved history, the
 * generator settings and the dark-mode flag, with the operations that
 * update them.
 */
module AppContext {
  import opened Types
  import Generator

  /** At most this many passwords stay in the history. */
  const MAX_HISTORY: nat := 50

  /** The settings used when none are saved: 16 characters, every category, ambiguous kept, easy typing on. */
  const DEFAULT_SETTINGS: GeneratorSettings := GeneratorSettings(
    length := 16,
    useUppercase := true,
    useLowercase := true,
    useNumbers := true,
    useSymbols := true,
    useAmbiguous := false,
    easyTyping := true)

  /** The first `n` elements of `s`, or all of `s` when it is shorter. */
  function Take<T>(s: seq<T>, n: nat): (r: seq<T>)
    ensures |r| == if |s| < n then |s| else n
    ensures r == s[..|r|]
  {
    if |s| < n then s else s[..n]
  }

  // ---------------------------------------------------------------------
  // History
  // ---------------------------------------------------------------------

  /** The history after adding `e`: newest first, then the older entries in order, cut to the cap. */
  function Prepended(h: seq<PasswordEntry>, e: PasswordEntry): (r: seq<PasswordEntry>)
    ensures |r| == if |h| < MAX_HISTORY then |h| + 1 else MAX_HISTORY
    ensures r[0] == e
    ensures r[1..] == h[..|r| - 1]
  {
    var r := Take([e] + h, MAX_HISTORY);
    assert r[1..] == ([e] + h)[1..|r|];
    r
  }

  /** The history without the entries whose id is `id`, the others kept in order. */
  function WithoutId(h: seq<PasswordEntry>, id: string): (r: seq<PasswordEntry>)
    ensures |r| <= |h|
  {
    if h == [] then []
    else (if h[0].id == id then [] else [h[0]]) + WithoutId(h[1..], id)
  }

  /** An entry stays exactly when it was there and its id differs from `id`. */
  lemma {:induction false} WithoutIdMembers(h: seq<PasswordEntry>, id: string, e: PasswordEntry)
    ensures e in WithoutId(h, id) <==> e in h && e.id != id
  {
    if h != [] {
      WithoutIdMembers(h[1..], id, e);
      assert h == [h[0]] + h[1..];
    }
  }

  /** Removal distributes over concatenation, so it keeps the relative order of the entries it keeps. */
  lemma {:induction false} WithoutIdConcat(a: seq<PasswordEntry>, b: seq<PasswordEntry>, id: string)
    ensures WithoutId(a + b, id) == WithoutId(a, id) + WithoutId(b, id)
  {
    if a == [] {
      assert a + b == b;
    } else {
      var head := if a[0].id == id then [] else [a[0]];
      assert (a + b)[0] == a[0];
      assert (a + b)[1..] == a[1..] + b;
      WithoutIdConcat(a[1..], b, id);
      calc {
        WithoutId(a + b, id);
        head + WithoutId(a[1..] + b, id);
        head + (WithoutId(a[1..], id) + WithoutId(b, id));
        (head + WithoutId(a[1..], id)) + WithoutId(b, id);
      }
    }
  }

  /** Removing an id that no entry carries changes nothing. */
  lemma {:induction false} WithoutIdAbsent(h: seq<PasswordEntry>, id: string)
    requires forall i :: 0 <= i < |h| ==> h[i].id != id
    ensures WithoutId(h, id) == h
  {
    if h != [] {
      WithoutIdAbsent(h[1..], id);
      assert h == [h[0]] + h[1..];
    }
  }

  /** After a removal no entry carries the removed id. */
  lemma WithoutIdRemovesAll(h: seq<PasswordEntry>, id: string)
    ensures forall i :: 0 <= i < |WithoutId(h, id)| ==> WithoutId(h, id)[i].id != id
  {
    var r := WithoutId(h, id);
    forall i | 0 <= i < |r| ensures r[i].id != id {
      WithoutIdMembers(h, id, r[i]);
    }
  }

  /** Removing the same id twice is the same as removing it once. */
  lemma WithoutIdIdempotent(h: seq<PasswordEntry>, id: string)
    ensures WithoutId(WithoutId(h, id), id) == WithoutId(h, id)
  {
    WithoutIdRemovesAll(h, id);
    WithoutIdAbsent(WithoutId(h, id), id);
  }

  /** Removing an entry just added, whose id was new, gives back the history it was added to, when below the cap. */
  lemma RemoveUndoesAdd(h: seq<PasswordEntry>, e: PasswordEntry)
    requires |h| < MAX_HISTORY
    requires forall i :: 0 <= i < |h| ==> h[i].id != e.id
    ensures WithoutId(Prepended(h, e), e.id) == h
  {
    assert Prepended(h, e) == [e] + h;
    WithoutIdConcat([e], h, e.id);
    WithoutIdAbsent(h, e.id);
  }

  /** Once capped, adding and removing keep the history within the cap. */
  lemma HistoryStaysCapped(h: seq<PasswordEntry>, e: PasswordEntry, id: string)
    requires |h| <= MAX_HISTORY
    ensures |Prepended(h, e)| <= MAX_HISTORY
    ensures |WithoutId(h, id)| <= MAX_HISTORY
  {
  }

  /** `es` in reverse order. */
  function Reversed<T>(es: seq<T>): (r: seq<T>)
    ensures |r| == |es|
  {
    if es == [] then [] else Reversed(es[1..]) + [es[0]]
  }

  /** The history after adding `es[0]`, then `es[1]`, and so on. */
  function AddedAll(h: seq<PasswordEntry>, es: seq<PasswordEntry>): seq<PasswordEntry>
    decreases |es|
  {
    if es == [] then h else AddedAll(Prepended(h, es[0]), es[1..])
  }

  /** Cutting before prepending changes nothing that the second cut keeps. */
  lemma TakePrefix<T>(a: seq<T>, b: seq<T>, n: nat)
    ensures Take(a + Take(b, n), n) == Take(a + b, n)
  {
    var l := |Take(a + b, n)|;
    assert |Take(a + Take(b, n), n)| == l;
    forall i | 0 <= i < l ensures Take(a + Take(b, n), n)[i] == Take(a + b, n)[i] {
      if i < |a| {
        assert (a + Take(b, n))[i] == a[i] == (a + b)[i];
      } else {
        assert (a + Take(b, n))[i] == b[i - |a|] == (a + b)[i];
      }
    }
  }

  /** Putting the first of `es` back in front of `h` after the reversed rest of `es` is reversing all of `es`. */
  lemma ReversedThenRest<T>(es: seq<T>, h: seq<T>)
    requires es != []
    ensures Reversed(es[1..]) + ([es[0]] + h) == Reversed(es) + h
  {
    var r := Reversed(es[1..]);
    assert Reversed(es) == r + [es[0]];
    ConcatAssoc(r, [es[0]], h);
  }

  /** Concatenation is associative. */
  lemma ConcatAssoc<T>(a: seq<T>, b: seq<T>, c: seq<T>)
    ensures (a + b) + c == a + (b + c)
  {
  }

  /**
   * Adding several entries one at a time leaves the most recent `MAX_HISTORY` of
   * them and of the earlier history, the newest first.
   */
  lemma {:induction false} AddedAllKeepsNewest(h: seq<PasswordEntry>, es: seq<PasswordEntry>)
    requires |h| <= MAX_HISTORY
    ensures AddedAll(h, es) == Take(Reversed(es) + h, MAX_HISTORY)
    decreases |es|
  {
    if es == [] {
      assert Reversed(es) + h == h;
    } else {
      var x, rest := es[0], es[1..];
      var h' := Prepended(h, x);
      assert AddedAll(h, es) == AddedAll(h', rest);
      assert h' == Take([x] + h, MAX_HISTORY);
      AddedAllKeepsNewest(h', rest);
      TakePrefix(Reversed(rest), [x] + h, MAX_HISTORY);
      ReversedThenRest(es, h);
    }
  }

  // ---------------------------------------------------------------------
  // Settings
  // ---------------------------------------------------------------------

  /** A partial settings record: the fields to overwrite. */
  datatype SettingsPatch = SettingsPatch(
    length: Option<nat>,
    useUppercase: Option<bool>,
    useLowercase: Option<bool>,
    useNumbers: Option<bool>,
    useSymbols: Option<bool>,
    useAmbiguous: Option<bool>,
    easyTyping: Option<bool>)

  /** The patch that overwrites nothing. */
  const EMPTY_PATCH: SettingsPatch := SettingsPatch(None, None, None, None, None, None, None)

  /** The patch that overwrites every field with the value it has in `s`. */
  function FullPatch(s: GeneratorSettings): SettingsPatch {
    SettingsPatch(Some(s.length), Some(s.useUppercase), Some(s.useLowercase), Some(s.useNumbers),
      Some(s.useSymbols), Some(s.useAmbiguous), Some(s.easyTyping))
  }

  /** `{ ...prev, ...patch }`: each field given in the patch wins, every other field keeps its value. */
  function Merged(prev: GeneratorSettings, patch: SettingsPatch): (r: GeneratorSettings)
    ensures patch.length.Some? ==> r.length == patch.length.value
    ensures patch.length.None? ==> r.length == prev.length
    ensures patch.useUppercase.Some? ==> r.useUppercase == patch.useUppercase.value
    ensures patch.useUppercase.None? ==> r.useUppercase == prev.useUppercase
    ensures patch.useLowercase.Some? ==> r.useLowercase == patch.useLowercase.value
    ensures patch.useLowercase.None? ==> r.useLowercase == prev.useLowercase
    ensures patch.useNumbers.Some? ==> r.useNumbers == patch.useNumbers.value
    ensures patch.useNumbers.None? ==> r.useNumbers == prev.useNumbers
    ensures patch.useSymbols.Some? ==> r.useSymbols == patch.useSymbols.value
    ensures patch.useSymbols.None? ==> r.useSymbols == prev.useSymbols
    ensures patch.useAmbiguous.Some? ==> r.useAmbiguous == patch.useAmbiguous.value
    ensures patch.useAmbiguous.None? ==> r.useAmbiguous == prev.useAmbiguous
    ensures patch.easyTyping.Some? ==> r.easyTyping == patch.easyTyping.value
    ensures patch.easyTyping.None? ==> r.easyTyping == prev.easyTyping
  {
    GeneratorSettings(
      patch.length.GetOr(prev.length),
      patch.useUppercase.GetOr(prev.useUppercase),
      patch.useLowercase.GetOr(prev.useLowercase),
      patch.useNumbers.GetOr(prev.useNumbers),
      patch.useSymbols.GetOr(prev.useSymbols),
      patch.useAmbiguous.GetOr(prev.useAmbiguous),
      patch.easyTyping.GetOr(prev.easyTyping))
  }

  /** `{ ...a, ...b }` on two patches: a field of `b` wins over the same field of `a`. */
  function Combined(a: SettingsPatch, b: SettingsPatch): SettingsPatch {
    SettingsPatch(
      if b.length.Some? then b.length else a.length,
      if b.useUppercase.Some? then b.useUppercase else a.useUppercase,
      if b.useLowercase.Some? then b.useLowercase else a.useLowercase,
      if b.useNumbers.Some? then b.useNumbers else a.useNumbers,
      if b.useSymbols.Some? then b.useSymbols else a.useSymbols,
      if b.useAmbiguous.Some? then b.useAmbiguous else a.useAmbiguous,
      if b.easyTyping.Some? then b.easyTyping else a.easyTyping)
  }

  /** An empty patch leaves the settings as they are. */
  lemma MergeEmpty(prev: GeneratorSettings)
    ensures Merged(prev, EMPTY_PATCH) == prev
  {
  }

  /** A full patch replaces the settings outright. */
  lemma MergeFull(prev: GeneratorSettings, s: GeneratorSettings)
    ensures Merged(prev, FullPatch(s)) == s
  {
  }

  /** Applying the same patch twice is the same as applying it once. */
  lemma MergeIdempotent(prev: GeneratorSettings, patch: SettingsPatch)
    ensures Merged(Merged(prev, patch), patch) == Merged(prev, patch)
  {
  }

  /** Two updates in a row are one update with the combined patch. */
  lemma MergeCompose(prev: GeneratorSettings, a: SettingsPatch, b: SettingsPatch)
    ensures Merged(Merged(prev, a), b) == Merged(prev, Combined(a, b))
  {
  }

  /** With the default settings there are characters to draw from, and each hand has keys of its own. */
  lemma DefaultSettingsPools()
    ensures DEFAULT_SETTINGS.easyTyping && DEFAULT_SETTINGS.length == 16
    ensures Generator.Allowed(Generator.SPANISH_QWERTY, DEFAULT_SETTINGS) != []
    ensures Generator.RawLeftPool(Generator.SPANISH_QWERTY, DEFAULT_SETTINGS) != []
    ensures Generator.RawRightPool(Generator.SPANISH_QWERTY, DEFAULT_SETTINGS) != []
    ensures Generator.SPANISH_QWERTY.HandsApart()
  {
    var k, s := Generator.SPANISH_QWERTY, DEFAULT_SETTINGS;
    Generator.AllowedMembers(k, s, 'q');
    Generator.StripMembers(s, Generator.LeftKeys(k, s), 'q');
    Generator.StripMembers(s, Generator.RightKeys(k, s), 'y');
    Generator.SpanishQwertyHandsApart();
  }

  // ---------------------------------------------------------------------
  // The provider
  // ---------------------------------------------------------------------

  /** The state the provider holds and the operations it hands to the pages. */
  class AppProvider {
    var history: seq<PasswordEntry>
    var settings: GeneratorSettings
    var darkMode: bool

    /** The history holds no more than the cap. */
    predicate Capped()
      reads this
    {
      |history| <= MAX_HISTORY
    }

    /** Start from the saved values, or from the defaults where nothing was saved. */
    constructor (savedHistory: Option<seq<PasswordEntry>>, savedSettings: Option<GeneratorSettings>,
                 savedDarkMode: Option<bool>)
      ensures history == savedHistory.GetOr([])
      ensures settings == savedSettings.GetOr(DEFAULT_SETTINGS)
      ensures darkMode == savedDarkMode.GetOr(true)
    {
      history := savedHistory.GetOr([]);
      settings := savedSettings.GetOr(DEFAULT_SETTINGS);
      darkMode := savedDarkMode.GetOr(true);
    }

    /** Put `entry` at the front of the history, dropping the oldest entry beyond the cap. */
    method AddToHistory(entry: PasswordEntry)
      modifies this
      ensures history == Prepended(old(history), entry)
      ensures Capped()
      ensures settings == old(settings) && darkMode == old(darkMode)
    {
      history := Prepended(history, entry);
    }

    /** Drop every entry whose id is `id`. */
    method RemoveFromHistory(id: string)
      modifies this
      ensures history == WithoutId(old(history), id)
      ensures forall i :: 0 <= i < |history| ==> history[i].id != id
      ensures old(Capped()) ==> Capped()
      ensures settings == old(settings) && darkMode == old(darkMode)
    {
      WithoutIdRemovesAll(history, id);
      history := WithoutId(history, id);
    }

    /** Empty the history. */
    method ClearHistory()
      modifies this
      ensures history == [] && Capped()
      ensures settings == old(settings) && darkMode == old(darkMode)
    {
      history := [];
    }

    /** Overwrite the settings fields given in `patch`. */
    method UpdateSettings(patch: SettingsPatch)
      modifies this
      ensures settings == Merged(old(settings), patch)
      ensures history == old(history) && darkMode == old(darkMode)
    {
      settings := Merged(settings, patch);
    }

    /** Flip the dark-mode flag. */
    method ToggleDarkMode()
      modifies this
      ensures darkMode == !old(darkMode)
      ensures history == old(history) && settings == old(settings)
    {
      darkMode := !darkMode;
    }
  }
}
