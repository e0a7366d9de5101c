# Rate-table row classifier

This project models the core of `scraping_projet.py` in Dafny. That script reads two tables from a car-rental rate sheet:
- the passenger-vehicle ("VP") table;
- the utility-vehicle ("VU") table.

It turns their cleaned rows into fixed nine-column records. The model covers five parts:
- the cell cleaner `clean_table`;
- the token filter `_tokens`;
- the numeric-token recogniser `_is_num`;
- the two row loops, with their model-name runs and the VU volume scanner;
- the helper `next_num`.

Each part that the script runs as a loop is a `method` with the same loop. It is proved equal to a declarative specification function, and the properties the script relies on are proved about those functions.

Modules:

- `Text` (`text.dfy`): stand-ins for `str.strip`, `str.upper`, `str.replace("\n", " ")`, `" ".join` and `in` on strings.
- `Numeric` (`numeric.dfy`): `_is_num`.
  - The regular expression `^\d{1,3}(?: \d{3})*(?:[.,]\d+)?$` is written once as a grammar (`MatchesNumPattern`) and once as a left-to-right recogniser (`IsNumShape`).
  - The two are proved equal.
- `Filtering` (`filtering.dfy`): `Collect`, the "keep what a row produces, in order" pattern shared by `clean_table`, `_tokens` and both row loops, with its order lemmas.
- `Cleaning` (`cleaning.dfy`): `clean_table` as a method and `_tokens` as a function.
- `Scanning` (`scanning.dfy`): the declarative pieces, and `next_num` as a method. The declarative pieces are:
  - `TakeWhile` for the model run;
  - `Filter`/`NumericOnly` for numeric tokens;
  - `PadTo` for padding with `""`;
  - `NextMatch`/`NextValues` for the `next_num` chain.
- `VP` (`vp.dfy`) and `VU` (`vu.dfy`): the two schemas.
  - Headers, category tests, record functions `VPRecord`/`VURecord`.
  - The row methods `ParseVPRow`/`ParseVURow`.
  - The table methods `ParseVP`/`ParseVU` (clean, then classify).
- Some small lemmas have no counterpart in the script. They only split a proof into steps the verifier handles cheaply: `VP.Display7`, `VU.Display6`, `VU.JoinPrepend`, `VU.SliceOne`, `VU.SliceTwo`, `VU.SpacedAssoc`, `VU.JoinMerge`, `VU.ExtendConsumed` and `VU.WalkCons`. The same goes for `Scanning.PadShape` and `Numeric.CutAvoids`.

Modelling notes:

- **Input.** A raw table is a sequence of `Option<seq<Option<string>>>`: a row or a cell may be missing.
- **The `$` anchor.** In Python, `$` in `re.match` also accepts a single line break at the very end of the string. The category tests and the volume test model this. Lemmas (`VPCategoryOnTokens`, `VUCategoryOnTokens`, `VolumeOnTokens`) show it never matters on tokens, because `_tokens` strips them.
- **Numbers.** The first group of a number has one to three digits and every later group exactly three, so "12 34" is not a number (`Numeric.NumRejectsShortGroup`).
- **The cursor of `next_num`.** When no numeric token remains, `next_num` returns the position its skip loop reached, `len(toks)` (`Scanning.NextMatchMeaning`).
- **The two stops of the volume loop.** The "decimal number" stop and the fallback stop have the same effect. `VU.VolumeScan` keeps both branches. `VU.VolumeScanStops` shows that the stop position depends only on the three consuming branches. `VU.VolumeScanWalk` shows that the scan stops at the first token it cannot take. It follows the loop's cursor one iteration at a time (`VolumeVisits`): every visited position before the last is one the loop takes, the cursor then moves past that token or past a "+" and its partner (`VolumeStep`), and the last position is the stop of `VolumeScan`. `VU.VolumeScanConsumes` adds that every consumed token is one the loop can take, or comes right after a consumed "+". `VU.VolumeIsNotDecimal` shows that the order of the checks could not make a volume token hit the decimal stop.

## Model

| member | source | states |
|---|---|---|
| Text.Strip | scraping_projet.py:70 | the result has no leading or trailing whitespace, is empty exactly when the input is all whitespace, and uses only characters of the input |
| Text.StripCut | scraping_projet.py:70 | the strip is the input with an all-whitespace prefix and an all-whitespace suffix cut off |
| Text.StripStripped | scraping_projet.py:70 | stripping a string without surrounding whitespace changes nothing |
| Text.ReplaceNewlines | scraping_projet.py:35 | same length, every line break becomes a space, every other character is unchanged |
| Text.UpperChar | scraping_projet.py:85 | an ASCII lower-case letter becomes its capital, é becomes É and è becomes È, every other character is unchanged, and no lower-case ASCII letter is left |
| Text.Upper | scraping_projet.py:85 | `.upper()` keeps the length and upper-cases each character |
| Text.UpperIdempotent | scraping_projet.py:133 | upper-casing twice is upper-casing once |
| Text.JoinCons | scraping_projet.py:85 | `" ".join` puts exactly one space between a first part and the join of the rest, and adds nothing after a last part |
| Text.Contains | scraping_projet.py:87-91 | true exactly when the needle occurs at some position of the text |
| Text.JoinStripped | scraping_projet.py:106 | joining non-empty stripped tokens with spaces gives a stripped string, empty exactly when there are no tokens, so the `.strip()` after the join is a no-op |
| Numeric.RecogniserSound | scraping_projet.py:67 | every string the recogniser accepts belongs to the regular language |
| Numeric.RecogniserComplete | scraping_projet.py:67 | every string of the regular language is accepted by the recogniser |
| Numeric.RecogniserMatchesGrammar | scraping_projet.py:67 | recogniser and grammar agree on every string (both directions) |
| Numeric.IsNumMeaning | scraping_projet.py:69-73 | a token is numeric exactly when its stripped form is non-empty and in the language; an all-whitespace token never is; a numeric token starts with a digit |
| Numeric.SimpleNumberIsNum | scraping_projet.py:67 | one to three digits, optionally followed by a decimal mark and digits, are a number |
| Numeric.NonDigitStartNotNum | scraping_projet.py:69-73 | a stripped token that does not start with a digit is not a number |
| Numeric.PricesAreNumbers | scraping_projet.py:67 | the prices "0,50", "35,00", "40,00", "45,00", "60,00", "150,00", "300" are numbers |
| Numeric.NumAcceptsGrouped | scraping_projet.py:67 | "1 200" is a number |
| Numeric.NumAcceptsDecimal | scraping_projet.py:67 | "45,00" is a number |
| Numeric.NumRejectsUngrouped | scraping_projet.py:67 | "1200" is not a number |
| Numeric.NumRejectsShortGroup | scraping_projet.py:67 | "12 34" is not a number |
| Numeric.NumRejectsOther | scraping_projet.py:69-73 | "20+", "Clio" and "" are not numbers |
| Numeric.NumAvoidsLetters | scraping_projet.py:69-73 | a numeric token contains no letter in either case |
| Filtering.KeptIndices | scraping_projet.py:32-35 | the kept positions are in range, increasing, and include every position that produces a value |
| Filtering.CollectInOrder | scraping_projet.py:32-35 | the m-th output is the value of the m-th kept input, so the order of the input is preserved |
| Filtering.CollectAppend | scraping_projet.py:32-35 | collecting a concatenation is the concatenation of the collected parts |
| Filtering.CollectSound | scraping_projet.py:32-35 | every output value was produced by some input element |
| Cleaning.CleanCell | scraping_projet.py:35 | a present cell becomes its text with line breaks turned into spaces and then stripped, a missing cell ""; the result has no line break and no surrounding whitespace, and is "" exactly when the cell is missing or all whitespace |
| Cleaning.CleanRow | scraping_projet.py:35 | the comprehension cleans each cell in place: same width, the k-th result is the k-th cleaned cell, and every result is clean |
| Cleaning.CleanRaw | scraping_projet.py:33-35 | a row is kept exactly when present and non-empty, keeps its number of cells, and every cell is clean |
| Cleaning.CleanTable | scraping_projet.py:30-36 | the loop returns, in input order, the cleaned form of every present non-empty row, each as wide as its raw row and made of clean cells |
| Cleaning.TokenOf | scraping_projet.py:76 | a cell gives a token exactly when it is not all whitespace, and the token is its stripped form |
| Cleaning.Tokens | scraping_projet.py:75-76 | every token is non-empty and stripped |
| Cleaning.TokensInOrder | scraping_projet.py:75-76 | the tokens are, in order, the stripped forms of exactly the cells that are not all whitespace |
| Scanning.FilterSound | scraping_projet.py:110-121 | every kept token satisfies the test, and filtering twice is filtering once |
| Scanning.TakeWhileMeaning | scraping_projet.py:101-105 | every taken token satisfies the test and the next token, if any, does not |
| Scanning.TakeWhileUnique | scraping_projet.py:101-105 | a prefix with those two properties is the model run |
| Scanning.PaddedNumericFields | scraping_projet.py:114-121 | the padded numeric fields have exactly the requested count, every non-empty one is numeric, and after a "" all are "" |
| Scanning.SkipUntilMeaning | scraping_projet.py:110-111 | the skip passes only non-matching tokens and stops at a matching one or at the end |
| Scanning.NextMatch | scraping_projet.py:109-112 | the returned cursor lies between the start and the end of the tokens |
| Scanning.NextMatchMeaning | scraping_projet.py:109-112 | the result is the first matching token from the cursor and the position after it, or "" and the end of the tokens when none matches |
| Scanning.NextMatchRemainder | scraping_projet.py:109-112 | the matching tokens from the cursor are the returned token followed by the matching tokens from the returned cursor |
| Scanning.ScanNext | scraping_projet.py:110-112 | the skip loop and conditional return compute exactly the value and cursor of `NextMatch`, for any token test |
| Scanning.NextNum | scraping_projet.py:109-112 | the scan with `_is_num` returns exactly the value and cursor of `NextMatch` for numeric tokens |
| Scanning.NextValuesPadded | scraping_projet.py:115-121 | n chained calls return the first n numeric tokens from the cursor, padded with "" |
| VP.VPCategoryOnTokens | scraping_projet.py:97 | on a token the category test means: a single capital letter |
| VP.VPRecordWhen | scraping_projet.py:81-98 | a row yields a record exactly when it has tokens, is not a header row (`IsVPHeader`: the upper-cased join of its tokens contains VEHICULES, MODÈLES, KILOMÉTRAGE or ILLIMITÉ, or starts with CAT), and starts with a single capital letter |
| VP.VPRecordShape | scraping_projet.py:123-125 | a record has the nine fields of the VP headers and its first field is the row's one-letter category |
| VP.VPModelStripped | scraping_projet.py:106 | the model is stripped, so the `.strip()` is a no-op |
| VP.VPModelMeaning | scraping_projet.py:100-105 | the model tokens are the tokens after the category, none numeric, and the token after them is numeric |
| VP.VPValuesMeaning | scraping_projet.py:114-121 | seven fields, the k-th being the k-th numeric token after the category; non-empty fields are numeric; padding runs to the end |
| VP.OneWordVPModel | scraping_projet.py:100-121 | with one word and then only numbers, the model is that word and the numeric tokens are all the rest |
| VP.NotVPHeader | scraping_projet.py:84-93 | a row with no V and no M in its tokens that does not start with C is not a header row |
| VP.BasicRowIsData | scraping_projet.py:81-98 | the row B, Clio followed by six numbers passes the header filter and the category test |
| VP.VPScenarioBasic | scraping_projet.py:81-125 | the row B, Clio, 45,00, 1 200, 300, 35,00, 150,00, 60,00 is a data row, its model is "Clio" and its fields are the six prices followed by "" |
| VP.ScanVPModel | scraping_projet.py:100-106 | the loop returns the joined model run and the cursor just after it |
| VP.ScanVPValues | scraping_projet.py:114-121 | the seven calls return the chained `next_num` values |
| VP.VPValuesFromModelEnd | scraping_projet.py:108-121 | started after the model, the seven calls give the first seven numeric tokens after the category, padded |
| VP.ParseVPRow | scraping_projet.py:80-125 | one loop iteration returns exactly the row's record, or nothing |
| VP.VPRows | scraping_projet.py:79-125 | the loop collects the records of the rows that yield one, in table order |
| VP.ParseVP | scraping_projet.py:38 | cleaning then classifying gives the records of the cleaned rows, in order |
| VP.VPTable | scraping_projet.py:79-125 | every record comes from a non-header row that yields it, and records keep the order of their rows |
| VP.CatTestRedundant | scraping_projet.py:91-97 | a row whose first token is a single capital letter never starts with "CAT" |
| VU.VUCategoryOnTokens | scraping_projet.py:146 | on a token the category test means: a capital letter followed by one or more digits |
| VU.VolumeOnTokens | scraping_projet.py:162 | on a token the volume test means: digits, optionally followed by " +" |
| VU.GluedPlusNotVolume | scraping_projet.py:162 | "20+" (no space before the plus) is not a volume token |
| VU.VolumeIsNotDecimal | scraping_projet.py:162-177 | a volume token has no decimal mark, so it can never reach the decimal stop |
| VU.VolumeScan | scraping_projet.py:159-178 | the volume cursor only moves forward and never passes the end of the tokens |
| VU.VolumeScanText | scraping_projet.py:159-178 | the volume field is the consumed tokens joined with spaces, and the scan collects nothing exactly when it consumes nothing |
| VU.VolumeScanStops | scraping_projet.py:159-178 | the scan stops at the end or at a token it cannot take, and collects nothing exactly when the first token cannot be taken |
| VU.VolumeScanConsumes | scraping_projet.py:159-178 | every consumed token is one the loop can take, or comes right after a consumed "+" |
| VU.VolumeScanWalk | scraping_projet.py:159-178 | the loop's cursor visits, one iteration at a time, only positions it can take, moving past the token or past a "+" and its partner; the scan stops at the first visited position it cannot take, or at the end |
| VU.VolumePartsAreTokens | scraping_projet.py:163-179 | every volume part, including a merged "+ x", is non-empty and stripped |
| VU.VolumeMergeSplit | scraping_projet.py:162-170 | a number, a lone "+" and a qualifier are read back as the number and "+ qualifier", consuming three tokens |
| VU.VURecordWhen | scraping_projet.py:130-147 | a row yields a record exactly when it has tokens, is not a header row (`IsVUHeader`: the upper-cased join of its tokens starts with CAT or contains VEHICULES UTILITAIRES, KILOMÉTRAGE SUPPLÉMENTAIRE, GARANTIE, PARTIES HAUTES or COVER, or contains VOLUME while the first token does not start with a capital letter and a digit, `HasVUCategoryPrefix`), and starts with a capital letter followed by digits |
| VU.VURecordShape | scraping_projet.py:194-196 | a record has the nine fields of the VU headers and its first field is the row's category |
| VU.VUModelMeaning | scraping_projet.py:149-154 | the model tokens are the tokens after the category, none numeric or volume-shaped, and the next token is numeric or a volume |
| VU.VUJoinsStripped | scraping_projet.py:155-179 | the model and the volume are stripped, so both `.strip()` calls are no-ops |
| VU.VUValuesMeaning | scraping_projet.py:187-192 | six fields, the k-th being the k-th numeric token after the volume; non-empty fields are numeric; padding runs to the end |
| VU.OneWordVUModel | scraping_projet.py:149-154 | a single word followed by a non-model token is the whole model |
| VU.VUSplitVolumeRow | scraping_projet.py:149-179 | with a one-word model and a split volume, the volume parts are the number and "+ qualifier" and the cursor is just after them |
| VU.VUValuesAllPrices | scraping_projet.py:181-192 | when exactly six numbers follow the volume, they are the six fields in order |
| VU.NotVUHeader | scraping_projet.py:133-143 | a row with no V, M or I in its tokens that does not start with C is not a header row |
| VU.MergeRowIsData | scraping_projet.py:130-147 | the row B4, Partner, 20, +, Hayon followed by six numbers passes the header filter and the category test |
| VU.VUScenarioVolumeMerge | scraping_projet.py:130-196 | the row B4, Partner, 20, +, Hayon and six prices is a data row, its model is "Partner", its volume is "20 + Hayon", and its fields are the six prices |
| VU.ScanVUModel | scraping_projet.py:149-155 | the loop returns the joined model run and the cursor just after it |
| VU.ScanVolume | scraping_projet.py:158-178 | the loop collects exactly the parts and stop position of `VolumeScan` |
| VU.ScanVUValues | scraping_projet.py:187-192 | the six calls return the chained `next_num` values |
| VU.VUValuesFromVolumeEnd | scraping_projet.py:181-192 | started after the volume, the six calls give the first six numeric tokens after it, padded |
| VU.ScanVUFields | scraping_projet.py:149-196 | model loop, volume loop and value scans together give the record fields |
| VU.ParseVURow | scraping_projet.py:129-196 | one loop iteration returns exactly the row's record, or nothing |
| VU.VURows | scraping_projet.py:128-196 | the loop collects the records of the rows that yield one, in table order |
| VU.ParseVU | scraping_projet.py:39 | cleaning then classifying gives the records of the cleaned rows, in order |
| VU.VUTable | scraping_projet.py:128-196 | every record comes from a non-header row that yields it, and records keep the order of their rows |
| VU.CatTestRedundant | scraping_projet.py:136-146 | a row whose first token starts with a capital letter and a digit never starts with "CAT" |

## Left out

- The download of the rate sheet (scraping_projet.py:8-14): network I/O.
- Table extraction from the PDF pages (scraping_projet.py:17-23): a foreign layout library. Its output is the raw-table input of `ParseVP`/`ParseVU`.
- Choosing the two tables by position (scraping_projet.py:26-27): the caller's job. A missing index is a Python crash, not classifier logic.
- Building the data frames and writing the CSV files (scraping_projet.py:199-203), and every `print`: export and console I/O. The header lists are kept as `VP.VPHeaders`/`VU.VUHeaders` and fix the record width.
- `str(c)` on cells that are not strings (scraping_projet.py:35): a present cell is a string in this model. The `isinstance(c, str)` test of `_tokens` is therefore always true.
- Unicode semantics. `str.upper()` is modelled for ASCII letters, é and è only. Whitespace is the fixed set of characters `str.isspace` accepts. The regex `\d` is ASCII `0-9` only.
- In the source, `next_num` is a closure over the row's tokens. Here it is a method that takes the tokens as a parameter.
