# Portion calculator: selection store and title capitalization

This project models the computational core of a browser calculator of food
exchanges (portions). The user types a number of portions next to each food of a
family; the page keeps those numbers in one global object, `userSelections`,
keyed by food id, shows each stored number back in the food's input, and on the
summary tab adds every stored number into one total. A small string helper,
`capitalize`, titles each family's tab.

- `wrappers.dfy` (module `Wrappers`): `Option`, the outcome of parsing the typed text.
- `selections.dfy` (module `Selections`): the map update, the default-to-0 read,
  the total as a ghost specification function `Sum`, and the class
  `SelectionStore` whose field `selections` is the mutable map. `Update`
  overwrites one entry in place; `Total` is the summary's accumulation loop,
  proved equal to `Sum`.
- `text.dfy` (module `Text`): `Capitalize`, with the upper-casing of one
  character passed in as a function, and an ASCII instance of it.

Behaviour of the code:
- A negative portion is not clamped to 0. `parseFloat("-5") || 0` is -5, and -5
  is stored and summed.
- Only NaN (and 0 itself) becomes 0.
- There are no per-group totals, no nutrient vectors, no adequacy percentages
  and no editable requirements in the code. The nutrient table and the
  requirement targets in `data/valores_nutricionales.js` are constants that
  nothing reads. The summary is a single count of portions over every stored
  id, whatever family it belongs to.

## Model

| member | source | states |
|---|---|---|
| `Selections.Coerce` | js/app.js:93 | the fallback to 0 after `parseFloat`: a parsed number, negative or not, is kept as it is; NaN becomes 0 |
| `Selections.Sum` | js/app.js:103-107 | the reference total of every stored value, whatever its key; a store holding only zeros totals 0 |
| `Selections.SelectionStore.Get` | js/app.js:75 | the value shown in a food's input is the default-to-0 read of the store's map |
| `Selections.Lookup` | js/app.js:75 | an id never set reads as 0; a set id reads as its stored value |
| `Selections.Assign` | js/app.js:91-96 | the updated id holds the parsed value, or 0 when the input is NaN, negatives included; the key set grows by exactly `id`; every other key keeps its value |
| `Selections.LookupAfterAssign` | js/app.js:75-95 | read-after-write: the updated id reads back as the coerced input, any other id reads as before the update |
| `Selections.SumRemove` | js/app.js:103-107 | the total is independent of the order in which the stored values are visited: any entry can be summed first |
| `Selections.SumAssign` | js/app.js:93-107 | after an update the total equals the old total minus the value previously read for that id plus the new value |
| `Selections.SumNonNegative` | js/app.js:103-107 | the total is non-negative when every stored value is (the store itself does not ensure this) |
| `Selections.NegativePortionLowersTotal` | js/app.js:93-107 | a negative input is stored unchanged and lowers the total: 2 and -5 sum to -3 |
| `Selections.NegativeNewPortionLowersTotal` | js/app.js:93-107 | for any store, a negative value entered for a new id is stored unchanged and the total drops by exactly that value |
| `Selections.UnparsableInputStoresZero` | js/app.js:93-95 | for any store, an input that parses to NaN is stored as 0 (the key is added if absent) and the total loses that id's previous value |
| `Selections.SelectionStore.constructor` | js/app.js:15 | the store starts empty, with total 0 |
| `Selections.SelectionStore.Update` | js/app.js:91-96 | the map becomes the old map with `id` overwritten; `id` reads back as the coerced input, every other id reads as before; the total changes by new minus old value |
| `Selections.SelectionStore.Total` | js/app.js:102-107 | the accumulation loop returns the sum of all stored values, every id included; the empty store gives 0 |
| `Text.Capitalize` | js/app.js:119-121 | the result has the length of the input; `""` stays `""`; otherwise the first character is upper-cased and the rest is kept |
| `Text.CapitalizeIdempotent` | js/app.js:119-121 | capitalizing twice equals capitalizing once when upper-casing the first character is idempotent |
| `Text.CapitalizeKeepsCapitalized` | js/app.js:119-121 | a text whose first character is already upper case is returned unchanged |
| `Text.AsciiUpper` | js/app.js:120 | an ASCII instance of the upper-casing: the result is never a lower-case ASCII letter, ASCII lower-case letters map to their capitals, every other character is left as it is |
| `Text.AsciiCapitalizeIdempotent` | js/app.js:119-121 | with ASCII upper-casing, capitalize is idempotent on every text |
| `Text.CerealesTitle` | js/app.js:135 | the initial tab's family "cereales" is titled "Cereales" |

## Left out

- `loadFoods` and `init` (js/app.js:5-12, js/app.js:127-136): asynchronous `fetch` of the food catalog, JSON parsing and error logging are I/O.
- Tab switching, event listeners and all DOM rendering (js/app.js:18-85, js/app.js:109-112) are user interface; the only computations in them, the default-to-0 read and the title, are modelled.
- The `min="0"` and `max="100"` attributes of the portion input (js/app.js:73-74) are browser hints that `updateSelection` does not enforce, so they are not an invariant of the store.
- `parseFloat` is a foreign call: the model receives its outcome as `Option<real>` (`None` for NaN). Its grammar (prefix parsing, `""` giving NaN, `"Infinity"`) is not modelled.
- Selections.Sum and Selections.SelectionStore.Total: the summation is over exact reals; IEEE-754 double rounding, which makes the source's float total depend on the visiting order, is not modelled.
- Text.Capitalize: `toUpperCase` is Unicode case mapping, which can lengthen a string ("ß" becomes "SS"); the model upper-cases one character to one character, through a parameter, so that length change is not captured. Also, `charAt(0)` and `slice(1)` split at UTF-16 code units, while a Dafny `char` is a whole Unicode scalar value: for a text starting outside the Basic Multilingual Plane (U+10428, say) the code upper-cases a lone high surrogate and returns the text unchanged, whereas the model applies the upper-casing to the whole first character.
- Text.AsciiUpper: agrees with `toUpperCase` only on ASCII; non-ASCII letters such as 'ñ' or 'á', which `toUpperCase` upper-cases, are left unchanged. That is enough for "cereales" (js/app.js:135) and the ASCII family keys of data/valores_nutricionales.js:4-12, not for arbitrary titles.
- Keys that collide with properties of JavaScript's object prototype (for example `"__proto__"`) are treated as ordinary keys.
- `data/valores_nutricionales.js` holds only constant tables that the code never reads; it has no operations to model.
