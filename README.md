# Password generator: the password builder, in Dafny

This project models the core of a small Tk password generator. Pressing
"generate" runs four steps:

1. It checks that the length entry is an integer from 4 to 50.
2. It builds a character pool from the selected classes, in this order: lower
   case, upper case, digits, special characters. The special characters are
   either a named preset or the user's custom string with surrounding
   whitespace stripped.
3. It draws one guaranteed character from each selected class's own alphabet.
   It then fills up to the requested length with draws, with replacement,
   from the pool.
4. It shuffles the result in place and shows it.

"Save password" turns the shown password, a timestamp and a note into one
text entry for the log.

Files:

- `wrappers.dfy`: `Option` and `Result`.
- `text.dfy`: Python's `str.strip()` and `str.isspace()` (the full Unicode
  whitespace set Python uses), and string repetition.
- `password_builder.dfy`: the configuration, the specification of acceptable
  outcomes, and the builder. `Verdict` gives the failure a configuration must
  end in. `IsPasswordFor` says what a produced password must satisfy: the
  requested length, only pool characters, and every selected class present.
  The builder methods (`BuildCharacterSet`, `GuaranteedDraws`, `Choices`,
  `FillAndShuffle`, `Shuffle`, `BuildPassword`) follow the source step by step. `Shuffle` is an
  in-place Fisher–Yates pass over an array.
- `password_log.dfy`: the log entry text, and a line splitter that reads the
  entry back.
- `app.dfy`: the window object. Its `passwordVar` field is written by
  `Generate` and read by `SavePassword`.

Randomness is not modelled as a distribution. Every draw is an arbitrary
in-range choice (Dafny's `:|`), so each property holds for every possible
result of the random source.

The window state is passed in as one `Config` value. The length is the
already-parsed `int()` result (`None` when parsing fails). There are five
flags. As in the source, the special class has two flags (`special_preset`
and `special_custom`) and counts as selected when either is set. The rest is
the preset/custom mode, the preset name and the custom string.

Two edge cases are modelled as the source behaves. Neither is rejected up
front as a configuration error:

- **Blank custom string.** A custom special string that is all whitespace is simply left
  out of the pool. If another class is selected, the guaranteed special draw
  then picks from an empty string and raises `IndexError` (`Failed(IndexError)`).
  If no other class is selected, the empty pool brings up the "select at least
  one character type" dialog.
- **Unknown preset name.** Pool building reads the preset table with a
  default of `''`. The guaranteed draw indexes the table directly and raises
  `KeyError` (`Failed(KeyError)`).

In both cases the shown password stays unchanged.

## Model

| member | source | states |
|---|---|---|
| `PasswordBuilder.ValidLength` | password_generator.py:92-95 | definition of `validate_input`: the entry parsed as an integer and lies from 4 to 50 inclusive (the body is the definition; `LengthBounds` states its boundaries) |
| `PasswordBuilder.SpecialPresets` | password_generator.py:22-26 | the preset table: the three preset names and their strings, character for character (the definition; `PresetsTrimmed` states its properties) |
| `PasswordBuilder.SpecialSelected` | password_generator.py:112 | definition of the `special_preset or special_custom` test, which both pool building (112) and the guaranteed draw (145) apply (the body is the definition; `PoolMembership` and `AcceptedIff` state what follows from it) |
| `PasswordBuilder.PoolSpecials` | password_generator.py:113-116 | definition of the special characters put in the pool: the preset looked up with a default of `''`, or the stripped custom string (the body is the definition; `PoolSpecialsEmpty` and `PoolMembership` state its properties) |
| `PasswordBuilder.DrawSpecials` | password_generator.py:145-148 | definition of the stripped source of the guaranteed special draw: the preset table indexed directly, `None` where that raises `KeyError`, or the custom string, then stripped (the body is the definition; `DrawMatchesPool` relates it to `PoolSpecials`) |
| `PasswordBuilder.Verdict` | password_generator.py:126-148 | definition of which exit `generate` takes, in the source's order: invalid length (128-129), empty pool (131-133), `KeyError` from the preset lookup (146-147), `IndexError` from `random.choice('')` (148), otherwise a password (the body is the definition; `AcceptedIff`, `BlankCustomFails`, `UnknownPresetFails` and `BuildPassword` state its properties) |
| `PasswordBuilder.LengthBounds` | password_generator.py:92-95 | lengths 4 and 50 are accepted; 3, 51 and an unparsable entry are rejected |
| `PasswordBuilder.BuildCharacterSet` | password_generator.py:100-124 | the pool is the selected alphabets concatenated in the order lower, upper, digits, special; `None` (the error dialog) exactly when that concatenation is empty |
| `PasswordBuilder.PoolMembership` | password_generator.py:102-119 | a character is in the pool iff it belongs to the alphabet of a selected class (the special part is the preset, `''` for an unknown name, or the stripped custom string) |
| `PasswordBuilder.PresetsTrimmed` | password_generator.py:22-26 | every preset string is non-empty and unchanged by `strip()` |
| `PasswordBuilder.PoolSpecialsEmpty` | password_generator.py:112-119 | the special part of the pool is empty iff the preset name is unknown (preset mode) or the custom string is all whitespace (custom mode) |
| `PasswordBuilder.DrawMatchesPool` | password_generator.py:145-148 | whenever the guaranteed special draw does not raise `KeyError`, its source string equals the special characters put in the pool |
| `PasswordBuilder.AcceptedIff` | password_generator.py:126-148 | generation succeeds iff the length is valid, at least one class is selected, and a selected special class has a known preset or a non-blank custom string |
| `PasswordBuilder.BlankCustomFails` | password_generator.py:112-148 | a blank custom string ends in `IndexError` when another class is selected, and in the empty-pool error otherwise |
| `PasswordBuilder.UnknownPresetFails` | password_generator.py:112-148 | an unknown preset name ends in `KeyError` when another class is selected, and in the empty-pool error otherwise |
| `PasswordBuilder.Choice` | password_generator.py:148 | `random.choice` returns a character of its argument, and fails (`IndexError`) exactly on the empty string |
| `PasswordBuilder.GuaranteedDraws` | password_generator.py:138-148 | before filling, the buffer holds one character per selected class, the k-th from the k-th selected alphabet, so at most 4; it fails exactly with `KeyError` for an unknown preset or `IndexError` for an empty stripped source |
| `PasswordBuilder.Choices` | password_generator.py:151-152 | the fill draws exactly `remaining` characters, all from the pool |
| `PasswordBuilder.Shuffle` | password_generator.py:153 | the in-place Fisher–Yates shuffle leaves the multiset of characters unchanged |
| `PasswordBuilder.ShuffleString` | password_generator.py:153-155 | shuffling the buffer and joining it gives a string with the same multiset of characters |
| `PasswordBuilder.PermutationKeeps` | password_generator.py:153 | a reordering keeps the length, keeps every class that is represented, and keeps all characters inside an alphabet |
| `PasswordBuilder.FillAndShuffle` | password_generator.py:151-153 | after filling and shuffling, the buffer has exactly `length` characters, all from the pool, and still holds every guaranteed character (`remaining` is never negative) |
| `PasswordBuilder.AssembledPassword` | password_generator.py:135-155 | a `length`-character string from the pool that still holds the guaranteed characters (one per selected class) is a password for the configuration and an admissible outcome |
| `PasswordBuilder.BuildPassword` | password_generator.py:126-155 | every outcome of `generate` is admissible: the failure `Verdict` prescribes (length, empty pool, `KeyError`, `IndexError`, checked in the source's order), or a password for the configuration |
| `PasswordBuilder.EveryClassRepresented` | password_generator.py:139-153 | a produced password has at least one lower-case, upper-case, digit or special character whenever that class is selected |
| `PasswordBuilder.NoLeakage` | password_generator.py:102-152 | every character of a produced password belongs to a selected class |
| `App.PasswordGenerator.constructor` | password_generator.py:73 | a new window shows no password |
| `App.PasswordGenerator.Generate` | password_generator.py:126-155 | on success the shown password becomes the generated one; on any failure it is left as it was |
| `App.PasswordGenerator.SavePassword` | password_generator.py:165-178 | with no password shown nothing is written; otherwise the entry is the log record for the timestamp, note and shown password |
| `PasswordLog.ShownNote` | password_generator.py:173-176 | the note line shows the stripped note, or "无" when the note is blank; never empty and never padded |
| `PasswordLog.Record` | password_generator.py:174-178 | definition of the f-string entry: newline, `[timestamp]`, newline, `备注: ` and the shown note, newline, `密码: ` and the password, newline, 40 dashes (the body is the definition; `RecordLines` states how it reads back) |
| `PasswordLog.RecordLines` | password_generator.py:174-178 | split on newlines, the entry gives back exactly: an empty line, `[timestamp]`, `备注: ` plus the note, `密码: ` plus the password, and 40 dashes |
| `Text.Strip` | password_generator.py:116 | `strip()` returns its argument with exactly a leading and a trailing run of whitespace cut off: a slice `s[i..j]` with `s[..i]` and `s[j..]` all whitespace, and neither end of the result whitespace |
| `Text.StripEmptyIffBlank` | password_generator.py:116-119 | `strip()` gives the empty string iff its argument is all whitespace |
| `Text.StripTrimmed` | password_generator.py:148 | `strip()` leaves alone a string with no whitespace at either end |
| `Text.Repeat` | password_generator.py:178 | `'-' * 40` is 40 characters, all dashes |

## Left out

- The Tk window, widgets, layout and main loop: UI plumbing. The window's variables are the `Config` argument and the `passwordVar` field.
- Message boxes: each error dialog is a `Failed` outcome or a `None` result. The success dialogs are not modelled.
- `copy_password`: it only calls the clipboard library, which is foreign code.
- Appending the entry to `passwords.txt`, and the dialog shown when that fails: file I/O. Only the entry text is modelled.
- `datetime.now().strftime(...)`: the formatted timestamp is an argument.
- `int()` parsing of the length entry: the length arrives already parsed, as `Option<int>`.
- The special mode: the source compares a string with `'preset'`. Here it is a two-valued datatype, which is what the radio buttons can produce.
- Python exceptions raised inside the Tk callback are modelled as `Failed(KeyError)` and `Failed(IndexError)`. Tk reports them, and the shown password stays as it was.
- PasswordBuilder.Shuffle: states only that the multiset of characters is kept, not that every permutation is equally likely. The statistical uniformity of `random.choice`, `random.choices` and `random.shuffle` is out of scope.
- PasswordBuilder.Choices: requires a non-empty pool. `random.choices` on an empty pool raises, but `generate` never calls it with one.
- PasswordLog.RecordLines: stated only for a timestamp, note and password that contain no newline. Otherwise the entry does not split into five lines.
