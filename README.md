# Password-GEN core in Dafny

This project models the core of the Password-GEN web application, a password generator built around a Spanish QWERTY keyboard. The core has two parts.

- **The generator** (`utils/generator.ts`), modelled in module `Generator` in `generator.dfy`:
  - the keyboard-zone constants and the ambiguous-character denylist;
  - the `calculateStrength` scoring heuristic;
  - `generatePassword` in both of its modes. Uniform mode draws each character from the unified pool with a random 32-bit word. "Easy typing" mode builds a left-hand pool and a right-hand pool, then alternates strictly between them from a random start hand.
- **The application state** (`store/AppContext.tsx`), modelled in module `AppContext` in `app_context.dfy`:
  - the default settings;
  - the 50-entry password history;
  - the settings merge and the dark-mode flag.

The shared records are in module `Types` in `types.dfy`: the strength labels, `PasswordEntry` and `GeneratorSettings`.

Both sources change state step by step, and the model keeps that form:
- `calculateStrength` is a method that accumulates its score through a chain of tests.
- `generatePassword` is a method built from the same steps as the source:
  - building the unified pool;
  - the `+=` construction of the hand pools;
  - the two fallbacks;
  - the alternating loop;
  - the uniform loop.
  Each step is proved against a specification function (`Allowed`, `LeftPool`, `RightPool`, `Pick`).
- The provider is a class, `AppProvider`, whose fields `history`, `settings` and `darkMode` the five operations update.

Randomness is passed in as parameters:
- A value of `Math.random()` is a `Draw(num, den)` with `num < den`, that is, a rational in [0, 1). Then `Math.floor(r * n)` is `num * n / den`, and `r > 0.5` is `2 * num > den`.
- In easy mode, draw 0 picks the start hand and draw `i + 1` picks character `i`.
- In uniform mode, `words[i]` stands for the `i`-th value that `crypto.getRandomValues` writes into the `Uint32Array`.

`GeneratePassword` takes the keyboard zones as a parameter `zones`; the application always passes `SPANISH_QWERTY`. The hand-separation results assume only `zones.HandsApart()`: no right-hand key and no symbol is also a left-hand key. Lemma `SpanishQwertyHandsApart` proves this for the real zone tables.

Results proved:
- **Length and empty pool.** The password is empty when no character is allowed. Otherwise it has exactly `settings.length` characters, whether or not ambiguous characters are excluded, so it is also empty when the length is 0.
- **Pool membership.** Every character comes from the allowed pool.
- **Ambiguous characters.** None of `l1IO0` appears when exclusion is on.
- **Uniform mode.** Character `i` is `allowed[words[i] % allowed.length]`.
- **Easy mode.** Character `i` is drawn from the pool of the hand that strict alternation assigns to step `i`.
- **Hand alternation.** When both hands have keys of their own, each character is typed by the hand that step `i` assigns, so neighbouring characters alternate hands.
- **Symbols.** A symbol can appear on a left-hand step only through the empty-left-pool fallback.
- **Dead fallback.** The second fallback to `allowed` (line 98) cannot be reached: both hand pools are non-empty whenever `allowed` is.
- **Filtering order.** Filtering ambiguous characters after concatenating the categories is the same as filtering each category first.
- **Pool split.** The two raw hand pools together are a rearrangement (same multiset) of `allowed`.

## Model

| member | source | states |
|---|---|---|
| Generator.HasUpper | utils/generator.ts:26 | The definition of `/[A-Z]/.test`: some character is an ASCII upper-case letter. `ClassesAreAscii` and `VeryStrongIff` state what it means for the score. |
| Generator.HasDigit | utils/generator.ts:27 | The definition of `/[0-9]/.test`: some character is an ASCII digit. `ClassesAreAscii` and `VeryStrongIff` state what it means for the score. |
| Generator.HasNonAlnum | utils/generator.ts:28 | The definition of `/[^A-Za-z0-9]/.test`: some character is outside A-Z, a-z, 0-9. `ClassesAreAscii` and `ZoneRanges` state what it means. |
| Generator.Score | utils/generator.ts:21-28 | The score is at most 6. It is 6 exactly for strings of 18 or more characters with an ASCII upper-case letter, a digit and a character outside A-Z, a-z, 0-9. A string shorter than 10 scores at most 3. |
| Generator.LevelOf | utils/generator.ts:30-33 | The definition of the label chain. `LevelThresholds` and `LevelMonotone` state its meaning. |
| Generator.CalculateStrength | utils/generator.ts:18-34 | The label is the one fixed by the score thresholds 3, 4 and 6. The empty password is "Débil", with label string `"Débil"`. |
| Generator.LevelMonotone | utils/generator.ts:30-33 | A higher score never gives a weaker label. |
| Generator.LevelThresholds | utils/generator.ts:30-33 | For scores 0..6: "Débil" exactly below 3, "Media" exactly at 3, "Fuerte" exactly at 4-5, "Muy Fuerte" exactly at 6. |
| Generator.TenLowercaseIsWeak | utils/generator.ts:21-30 | Ten ASCII lower-case letters score 1 and are "Débil". |
| Generator.VeryStrongIff | utils/generator.ts:21-33 | "Muy Fuerte" holds if and only if the length is at least 18 and all three character classes are present. |
| Types.LabelInjective | types.ts:5 | Distinct strengths have distinct labels, so the four label strings the source returns and stores correspond one-to-one to the strengths. |
| Generator.ClassesAreAscii | utils/generator.ts:26-28 | The regular-expression classes are ASCII only: `Ñ` is neither upper-case nor a digit, and `ñ`, `Ñ`, `¿`, `¡` are non-alphanumeric. |
| Generator.Draw.AboveHalf | utils/generator.ts:89 | The definition of `Math.random() > 0.5` on the draw num/den. `FillAlternating` uses it to fix the start hand. |
| Generator.Scale | utils/generator.ts:95 | `Math.floor(r * n)` for r in [0, 1) is a valid index below n whenever n > 0. |
| Generator.Pick | utils/generator.ts:95 | `pool.charAt(Math.floor(Math.random() * pool.length))` returns a character of the pool. |
| Generator.WithoutAmbiguous | utils/generator.ts:48 | Filtering never lengthens the string. |
| Generator.WithoutAmbiguousCount | utils/generator.ts:48 | Filtering removes every occurrence of `l`, `1`, `I`, `O`, `0` and keeps every other character as often as it occurs. |
| Generator.WithoutAmbiguousConcat | utils/generator.ts:48 | Filtering distributes over concatenation, so the kept characters stay in order. |
| Generator.WithoutAmbiguousIdempotent | utils/generator.ts:48 | Filtering twice is filtering once. |
| Generator.ZoneRanges | utils/generator.ts:6-14 | Each zone constant lies in its character range. Every symbol is non-alphanumeric. |
| Generator.LowerZonesDisjoint | utils/generator.ts:6-7 | No lower-case letter is in both hand zones. |
| Generator.UpperZonesDisjoint | utils/generator.ts:8-9 | No upper-case letter is in both hand zones. |
| Generator.SpanishQwertyHandsApart | utils/generator.ts:6-14 | On the real zone tables, no right-hand key and no symbol is a left-hand key. |
| Generator.Strip | utils/generator.ts:47-49 | The definition of the optional filter, also used at lines 79-82. `StripCount` and `StripMembers` state its meaning. |
| Generator.StripCount | utils/generator.ts:47-49 | Optional filtering keeps the character counts, except for ambiguous characters when exclusion is on. |
| Generator.StripMembers | utils/generator.ts:47-49 | Optional filtering keeps exactly the characters not excluded. |
| Generator.AllowedFilteredPerCategory | utils/generator.ts:40-49 | Filtering the concatenation equals concatenating the filtered categories. |
| Generator.Categories | utils/generator.ts:40-45 | The definition of `lower + upper + nums + syms`. `CategoriesSplit` and `AllowedFilteredPerCategory` state its meaning. |
| Generator.Allowed | utils/generator.ts:40-49 | The definition of the unified pool. `AllowedMembers`, `AllowedUnambiguous`, `AllowedEmptyIff` and `BuildAllowed` state its meaning. |
| Generator.AllowedMembers | utils/generator.ts:40-49 | A character is allowed if and only if it is in an enabled category and not excluded as ambiguous. |
| Generator.AllowedUnambiguous | utils/generator.ts:47-49 | With exclusion on, the allowed pool holds no ambiguous character. |
| Generator.AllowedEmptyIff | utils/generator.ts:40-51 | On the real zones, the allowed pool is empty if and only if no category is enabled. |
| Generator.CategoriesSplit | utils/generator.ts:40-45 | The enabled categories are a rearrangement of their left-hand keys plus their right-hand keys, with every symbol on the right. |
| Generator.LeftKeys | utils/generator.ts:56-70 | The definition of the left pool after the `+=` steps. `CollectHandKeys` builds it, and `CategoriesSplit` and `RawPoolHands` state its meaning. |
| Generator.RightKeys | utils/generator.ts:57-77 | The definition of the right pool after the `+=` steps, symbols included. `CollectHandKeys` builds it, and `CategoriesSplit` and `RawPoolHands` state its meaning. |
| Generator.RawLeftPool | utils/generator.ts:79-81 | The definition of the left pool after filtering, before the fallback. `RawPoolsPermuteAllowed`, `RawPoolsCoverAllowed` and `RawPoolHands` state its meaning. |
| Generator.RawRightPool | utils/generator.ts:79-82 | The definition of the right pool after filtering, before the fallback. `RawPoolsPermuteAllowed`, `RawPoolsCoverAllowed` and `RawPoolHands` state its meaning. |
| Generator.RawPoolsPermuteAllowed | utils/generator.ts:56-82 | Before the fallbacks, the two hand pools together are a rearrangement of the allowed pool. |
| Generator.RawPoolsCoverAllowed | utils/generator.ts:56-82 | Before the fallbacks, both hand pools draw only from the allowed pool. If the allowed pool is non-empty, at least one of them is too. |
| Generator.RawPoolHands | utils/generator.ts:59-82 | With the hands apart, the raw left pool holds only left-hand keys and no symbol, and the raw right pool holds no left-hand key. |
| Generator.LeftPool | utils/generator.ts:85 | After its fallback, the left pool is non-empty whenever the allowed pool is. |
| Generator.RightPool | utils/generator.ts:86 | After its fallback, which reads the updated left pool, the right pool is non-empty whenever the allowed pool is. |
| Generator.HandPoolsWithinAllowed | utils/generator.ts:56-86 | After the fallbacks, both hand pools draw only from the allowed pool. |
| Generator.SymbolsLeftOnlyByFallback | utils/generator.ts:71-85 | With the hands apart, a symbol is in the left pool only when the raw left pool was empty. |
| Generator.PoolsSeparateHands | utils/generator.ts:56-86 | With the hands apart and both raw pools non-empty, each pool holds keys of its own hand only. |
| Generator.UsesLeft | utils/generator.ts:89-100 | The definition of the hand used at step `i` under strict alternation from the start hand. `UsesLeftFlips`, `FillAlternating` and `StrictAlternation` state its meaning. |
| Generator.UsesLeftFlips | utils/generator.ts:100 | The hand flips at every step. |
| Generator.HandPool | utils/generator.ts:92 | The pool chosen for a step is non-empty whenever the allowed pool is. |
| Generator.BuildAllowed | utils/generator.ts:40-49 | The loop-free construction computes the allowed pool. |
| Generator.CollectHandKeys | utils/generator.ts:56-77 | The `+=` steps give each hand the zones of the enabled categories, with symbols on the right. |
| Generator.BuildHandPools | utils/generator.ts:56-86 | Filtering plus the two fallbacks give exactly `LeftPool` and `RightPool`. |
| Generator.GeneratePassword | utils/generator.ts:36-113 | The output is empty when nothing is allowed. Otherwise it has exactly the requested length, so it is also empty when the length is 0. Every character is allowed, with no ambiguous character under exclusion. Uniform mode gives `allowed[words[i] % allowed.length]`. Easy mode gives the pick from the alternating hand's pool. With the hands apart and both raw pools non-empty, character `i` is a left-hand key exactly on left steps. A symbol lands on a left step only through the fallback. |
| Generator.FillAlternating | utils/generator.ts:89-101 | The loop emits `length` characters, character `i` drawn by draw `i + 1` from the pool of step `i`'s hand. The branch of line 98 cannot be reached. |
| Generator.FillUniform | utils/generator.ts:105-109 | The loop emits `length` characters, character `i` being `allowed[words[i] % allowed.length]`. |
| Generator.EasyPasswordFacts | utils/generator.ts:89-101 | Any string drawn step by step from the alternating hand pools is allowed character by character. Under the hand conditions its characters follow the hands, and symbols appear on left steps only through the fallback. |
| Generator.StrictAlternation | utils/generator.ts:100 | When each character follows its step's hand, neighbouring characters belong to different hands. |
| AppContext.Prepended | store/AppContext.tsx:96 | Adding puts the new entry first and keeps the older entries in order. The result has at most 50 entries, dropping only the oldest. |
| AppContext.WithoutId | store/AppContext.tsx:100 | Removal never lengthens the history. |
| AppContext.WithoutIdMembers | store/AppContext.tsx:100 | An entry survives removal if and only if it was present and its id differs. |
| AppContext.WithoutIdConcat | store/AppContext.tsx:100 | Removal distributes over concatenation, so survivors keep their order. |
| AppContext.WithoutIdAbsent | store/AppContext.tsx:100 | Removing an id no entry carries changes nothing. |
| AppContext.WithoutIdRemovesAll | store/AppContext.tsx:100 | After removal no entry carries the id. |
| AppContext.WithoutIdIdempotent | store/AppContext.tsx:100 | Removing twice is removing once. |
| AppContext.RemoveUndoesAdd | store/AppContext.tsx:95-101 | Below the cap, removing a just-added entry with a new id restores the history. |
| AppContext.HistoryStaysCapped | store/AppContext.tsx:95-101 | A history within 50 entries stays within 50 after an add or a removal. |
| AppContext.AddedAllKeepsNewest | store/AppContext.tsx:96 | Adding entries one at a time to a capped history leaves the 50 most recent, newest first. |
| AppContext.Merged | store/AppContext.tsx:106 | Each field given in the patch wins. Every other field keeps its previous value. |
| AppContext.MergeEmpty | store/AppContext.tsx:106 | An empty patch leaves the settings unchanged. |
| AppContext.MergeFull | store/AppContext.tsx:106 | A patch giving every field replaces the settings. |
| AppContext.MergeIdempotent | store/AppContext.tsx:106 | Applying a patch twice is applying it once. |
| AppContext.MergeCompose | store/AppContext.tsx:105-107 | Two updates in a row equal one update with the combined patch. |
| AppContext.DefaultSettingsPools | store/AppContext.tsx:14-22 | The defaults ask for 16 characters in easy-typing mode. Under them the allowed pool and both raw hand pools are non-empty, so generated passwords alternate hands. |
| AppContext.AppProvider.constructor | store/AppContext.tsx:29-42 | Each field starts from its saved value, or else from `[]`, the default settings and `true`. |
| AppContext.AppProvider.AddToHistory | store/AppContext.tsx:95-97 | The history becomes the capped prepend and is within the cap. Settings and dark mode are unchanged. |
| AppContext.AppProvider.RemoveFromHistory | store/AppContext.tsx:99-101 | The history loses exactly the entries with the id and stays capped if it was capped. Nothing else changes. |
| AppContext.AppProvider.ClearHistory | store/AppContext.tsx:103 | The history becomes empty. Nothing else changes. |
| AppContext.AppProvider.UpdateSettings | store/AppContext.tsx:105-107 | The settings become the merge of the old settings with the patch. Nothing else changes. |
| AppContext.AppProvider.ToggleDarkMode | store/AppContext.tsx:109 | The flag is negated. Nothing else changes. |

## Left out

- Generator.Score: `password.length` counts UTF-16 code units, while the model counts Unicode scalar values. The length thresholds agree only for strings without characters outside the Basic Multilingual Plane. Every string the application scores is a generated password, and those are built from BMP characters only.
- `Math.random()` returns a floating-point double. It is modelled as an exact rational in [0, 1), so rounding in `r * n` is not modelled.
- `crypto.getRandomValues` is modelled as an arbitrary sequence of naturals, so the 32-bit bound of `Uint32Array` values is not imposed. The modulo step does not depend on it.
- GeneratePassword: `settings.length` is a natural number, so negative and fractional lengths are not modelled. For those, the easy-typing loop runs zero or ⌈length⌉ times.
- GeneratePassword: the two exceptions of uniform mode are not modelled, and for those lengths the model returns a full password instead. `new Uint32Array(settings.length)` (line 105) throws a RangeError for a negative length. `crypto.getRandomValues` (line 106) throws a QuotaExceededError above 16384 words (65536 bytes). The length slider's 6..32 range (pages/Generator.tsx:132-133) never reaches either.
- GeneratePassword: the keyboard zones are a parameter, and the hand-separation results are stated under `zones.HandsApart()`. For the application's own zones this is discharged by `SpanishQwertyHandsApart`.
- `localStorage` reads and writes, and `JSON.parse`/`JSON.stringify`: the constructor takes the already-parsed saved values as `Option`s, and the persistence effects (lines 78-93) are I/O.
- Adding and removing the `dark` class on the document element (lines 88-92) is DOM I/O.
- The PWA install prompt is browser event handling: `installPrompt`, the `beforeinstallprompt` listener (lines 44-58) and `triggerInstall` (lines 60-75).
- `useApp` (lines 129-135) and the React context plumbing are framework glue.
- AppContext.Merged: a `Partial<GeneratorSettings>` whose field is present but explicitly `undefined` overwrites that field with `undefined` under object spread. The patch here has only present-with-value or absent fields.
- The saved history can be longer than 50 entries when read back from storage. The model starts from whatever was saved, and `Capped` is therefore proved to be re-established by an add, and preserved by a removal, rather than held from the start.
- The pages, the service worker, id generation and timestamps (`Date.now`) are callers of the core and are not part of this model. The history search filter is one of those pages.
