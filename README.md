# MR-231-3 sentence converter

A Dafny model of `Mr231_3Converter`, the decoder that turns one MR-231-3
radar sentence `$RA<tag>,<fields...>*<checksum>` into a list of zero or
one station messages:

- a tracked-target report for a `TTM` sentence;
- a radar-system-data report for an `RSD` sentence, or the diagnostic
  that replaces it when its range scale is not one of the ten legal
  settings;
- nothing for any other tag.

The converter is modelled in two layers.

- **Pure specification** (module `Mr231_3`). Each of these functions states
  what one step of the converter yields, and its contract says when it
  succeeds and what it builds:
  - `Tokens` for `readFields`;
  - `DecodeTTM` and `DecodeRSD` for `getTTM` and `getRSD`;
  - `CheckRSD` for `checkRSD`;
  - `DecodeFields` and `Decode` for the switch in `convert`.
- **The converter object** (class `Mr231_3.Mr231_3Converter`). It keeps the
  two instance fields `fields` and `msgType`, and its methods update and
  read them step by step, as the Java code does. Each method is proved
  equal to its specification function. The `switch` of `convert` is the
  method `Dispatch`.

The model keeps the Java code's exceptions. Every operation returns a
`Result`, and a failure carries the exception that the code would throw:

- `StringIndexOutOfBounds` when the first `*` is missing or lies inside
  the preamble;
- `ArrayIndexOutOfBounds` for a token position past the end;
- `NumberFormat` for a token the parsers reject.

Exceptions happen in the code's own evaluation order:

- `getTTM` reads tokens 11 and 12 before it parses any number.
- `getRSD` parses tokens 1–4 and 9–11 before it reads tokens 12–14.

So a short token list ends with whichever exception the code reaches
first. This differs from a simpler "check the length first" reading, and
the model follows the code.

The Java `String` operations that the converter relies on are modelled
exactly in module `JavaText`:

- `indexOf`;
- `trim`, which removes every character up to and including the space;
- `split` with the default limit 0. When there is no separator the whole
  string comes back, so `""` gives `[""]`. Otherwise trailing empty
  pieces are dropped, so `","` gives `[]` and reading `fields[0]` then
  throws.

Number parsing and printing (`Integer.parseInt`, `Double.parseDouble`, and
the text a double becomes in string concatenation) are parameters of
type `Numerics`:

- A parse that throws is `None`.
- A `double` is a finite real or one of the three non-finite values.
- The ten legal scales are dyadic, so they are exact reals.

Module `Mr231_3Properties` proves statements that span whole sentences:

- where the type tag comes from;
- that the preamble, the checksum and RSD tokens 5–8 are never read;
- which exception a short or malformed token list ends with;
- a sentence builder that the converter inverts (round trips for TTM and
  RSD);
- the sentences of the converter's unit tests.

## Model

Source paths are relative to the repository root.

| member | source | states |
|---|---|---|
| JavaText.IndexOf | mr-231-3/src/main/java/org/task/searadar/mr231_3/convert/Mr231_3Converter.java:99 | `indexOf('*')` is -1 exactly when there is no `*`; otherwise it is the position of the first one |
| JavaText.Trim | mr-231-3/src/main/java/org/task/searadar/mr231_3/convert/Mr231_3Converter.java:99 | the result of `trim()` starts and ends with a non-blank character, and a string that is already trimmed is unchanged |
| JavaText.TrimSlice | mr-231-3/src/main/java/org/task/searadar/mr231_3/convert/Mr231_3Converter.java:99 | `trim()` keeps one contiguous slice of the string, and everything it removes before and after that slice is blank |
| JavaText.SplitAll | mr-231-3/src/main/java/org/task/searadar/mr231_3/convert/Mr231_3Converter.java:101 | the pieces between separators are separator-free, and joining them with the separator gives the string back |
| JavaText.DropTrailingEmpty | mr-231-3/src/main/java/org/task/searadar/mr231_3/convert/Mr231_3Converter.java:101 | keeps a prefix of the list, drops only empty strings, and leaves a list that is empty or ends in a non-empty string |
| JavaText.Split | mr-231-3/src/main/java/org/task/searadar/mr231_3/convert/Mr231_3Converter.java:101 | `split(",")`: the tokens hold no comma; a string without a comma comes back whole; the result is empty, or ends in a non-empty token, or is `[""]` |
| JavaText.SplitDropsOnlyTrailingEmpty | mr-231-3/src/main/java/org/task/searadar/mr231_3/convert/Mr231_3Converter.java:101 | `split` is the list of all pieces less a run of empty pieces at its end |
| JavaText.IndexOfAppend | mr-231-3/src/main/java/org/task/searadar/mr231_3/convert/Mr231_3Converter.java:99 | when the first part holds no `*`, the first `*` of a concatenation is the first one of the second part, shifted by the first part's length |
| JavaText.JoinAvoids | mr-231-3/src/main/java/org/task/searadar/mr231_3/convert/Mr231_3Converter.java:99-101 | a character in no piece and unequal to the separator is not in the joined string |
| JavaText.JoinBounds | mr-231-3/src/main/java/org/task/searadar/mr231_3/convert/Mr231_3Converter.java:99-101 | a join starts with its first piece's first character and ends with its last piece's last character, or with the separator when the last of several pieces is empty |
| JavaText.SplitAllJoin | mr-231-3/src/main/java/org/task/searadar/mr231_3/convert/Mr231_3Converter.java:101 | splitting a join of separator-free pieces gives the pieces back |
| JavaText.SplitJoin | mr-231-3/src/main/java/org/task/searadar/mr231_3/convert/Mr231_3Converter.java:101 | `split` inverts the join when no piece holds the separator and the last piece is not empty |
| JavaText.SplitFirst | mr-231-3/src/main/java/org/task/searadar/mr231_3/convert/Mr231_3Converter.java:101-102 | whenever the split yields a token, the first token is the text before the first comma: empty when the string starts with a comma, the whole string when there is none |
| JavaText.SplitAllOfSeparators | mr-231-3/src/main/java/org/task/searadar/mr231_3/convert/Mr231_3Converter.java:101 | a string of separators only comes apart into empty pieces |
| JavaText.SplitOfSeparators | mr-231-3/src/main/java/org/task/searadar/mr231_3/convert/Mr231_3Converter.java:101 | a non-empty string of commas only splits into no token at all |
| Mr231_3.Substring | mr-231-3/src/main/java/org/task/searadar/mr231_3/convert/Mr231_3Converter.java:99 | `substring(begin, end)` succeeds exactly when 0 <= begin <= end <= length and then holds the characters from `begin`; otherwise it throws with both bounds |
| Mr231_3.Tokens | mr-231-3/src/main/java/org/task/searadar/mr231_3/convert/Mr231_3Converter.java:98-101 | reading the tokens succeeds exactly when the first `*` exists and sits at index 3 or later; otherwise it fails with `substring(3, indexOf('*'))` |
| Mr231_3.MessageType | mr-231-3/src/main/java/org/task/searadar/mr231_3/convert/Mr231_3Converter.java:102 | the message type is token 0; an empty token list throws on index 0 |
| Mr231_3.IffCode | mr-231-3/src/main/java/org/task/searadar/mr231_3/convert/Mr231_3Converter.java:117-129 | total: `b` gives Friend, `p` gives Foe, and every other token (`d` included) gives Unknown, each as an if-and-only-if |
| Mr231_3.StatusCode | mr-231-3/src/main/java/org/task/searadar/mr231_3/convert/Mr231_3Converter.java:116-140 | total: `L` gives Lost, `T` gives Tracked, and every other token (`Q` included) gives UnreliableData, each as an if-and-only-if |
| Mr231_3.TokenAt | mr-231-3/src/main/java/org/task/searadar/mr231_3/convert/Mr231_3Converter.java:173-175 | `fields[i]` succeeds exactly when i is in range and yields token i; otherwise it throws on index i |
| Mr231_3.IntAt | mr-231-3/src/main/java/org/task/searadar/mr231_3/convert/Mr231_3Converter.java:143 | `Integer.parseInt(fields[i])` succeeds exactly when i is in range and the token parses; the failure is the index error or a number-format error on that token |
| Mr231_3.DoubleAt | mr-231-3/src/main/java/org/task/searadar/mr231_3/convert/Mr231_3Converter.java:144-147 | `Double.parseDouble(fields[i])` succeeds exactly when i is in range and the token parses; the failure is the index error or a number-format error on that token |
| Mr231_3.DecodeTTM | mr-231-3/src/main/java/org/task/searadar/mr231_3/convert/Mr231_3Converter.java:112-153 | a TTM report is built exactly when there are at least 13 tokens and tokens 1 (int), 2, 3, 5 and 6 parse. It then holds those values, status from token 12, identity from token 11, and type Unknown |
| Mr231_3.DecodeRSD | mr-231-3/src/main/java/org/task/searadar/mr231_3/convert/Mr231_3Converter.java:162-178 | an RSD report is built exactly when there are at least 15 tokens and tokens 1–4 and 9–11 parse. It then holds those values, with token 11 as the scale and tokens 12–14 verbatim |
| Mr231_3.CheckRSD | mr-231-3/src/main/java/org/task/searadar/mr231_3/convert/Mr231_3Converter.java:189-201 | no diagnostic exactly when the scale is one of the ten settings of `DISTANCE_SCALE`; otherwise the diagnostic is "RSD message. Wrong distance scale value: " followed by the scale's text |
| Mr231_3.ScaleTablesAgree | mr-231-3/src/main/java/org/task/searadar/mr231_3/convert/Mr231_3Converter.java:28 | the table as a sequence of doubles and as a set of reals hold the same ten values |
| Mr231_3.Validated | mr-231-3/src/main/java/org/task/searadar/mr231_3/convert/Mr231_3Converter.java:74-80 | the report itself is emitted exactly when its scale is legal; otherwise the diagnostic naming the scale is emitted instead, never both |
| Mr231_3.DecodeFields | mr-231-3/src/main/java/org/task/searadar/mr231_3/convert/Mr231_3Converter.java:69-82 | at most one message; no tokens throws on index 0. `TTM` gives exactly `[TrackedTarget(DecodeTTM(..))]` or DecodeTTM's fault. `RSD` gives exactly `[Validated(DecodeRSD(..))]` or DecodeRSD's fault; the report is kept exactly when the scale is in the table. Any other tag gives `[]` |
| Mr231_3.Decode | mr-231-3/src/main/java/org/task/searadar/mr231_3/convert/Mr231_3Converter.java:64-83 | a whole conversion yields at most one message, and a sentence with no `*` throws `substring(3, -1)` |
| Mr231_3.Mr231_3Converter.constructor | mr-231-3/src/main/java/org/task/searadar/mr231_3/convert/Mr231_3Converter.java:32-36 | a fresh converter keeps the given number library and holds no tokens |
| Mr231_3.Mr231_3Converter.ReadFields | mr-231-3/src/main/java/org/task/searadar/mr231_3/convert/Mr231_3Converter.java:98-103 | if the substring throws, neither field changes. Otherwise `fields` becomes the tokens; with no tokens, `msgType` is kept and index 0 throws; else `msgType` becomes token 0 |
| Mr231_3.Mr231_3Converter.GetTTM | mr-231-3/src/main/java/org/task/searadar/mr231_3/convert/Mr231_3Converter.java:112-153 | the default-then-switch code and its parse sequence give exactly `DecodeTTM` of the stored tokens, exceptions included |
| Mr231_3.Mr231_3Converter.ParseDoubleAt | mr-231-3/src/main/java/org/task/searadar/mr231_3/convert/Mr231_3Converter.java:166-172 | parsing stored token i gives `DoubleAt` |
| Mr231_3.Mr231_3Converter.GetRSD | mr-231-3/src/main/java/org/task/searadar/mr231_3/convert/Mr231_3Converter.java:162-178 | the setter sequence gives exactly `DecodeRSD` of the stored tokens, exceptions included |
| Mr231_3.Mr231_3Converter.Dispatch | mr-231-3/src/main/java/org/task/searadar/mr231_3/convert/Mr231_3Converter.java:65-82 | the switch on the stored type, appending to a fresh list, gives exactly `DecodeFields` of the stored tokens |
| Mr231_3.Mr231_3Converter.Convert | mr-231-3/src/main/java/org/task/searadar/mr231_3/convert/Mr231_3Converter.java:64-83 | the result is `Decode` of the sentence. The fields are unchanged when the substring throws. Otherwise `fields` holds the sentence's tokens, and `msgType` is token 0, or keeps its old value when there is no token |
| Mr231_3Properties.TokensOfFrame | mr-231-3/src/main/java/org/task/searadar/mr231_3/convert/Mr231_3Converter.java:98-101 | for any 3-character preamble and any checksum, the tokens are `split(trim(body))`: neither the preamble nor the checksum is read |
| Mr231_3Properties.MessageTypeIsFirstToken | mr-231-3/src/main/java/org/task/searadar/mr231_3/convert/Mr231_3Converter.java:98-102 | whenever the split yields a token, the message type is the text before the first comma of the trimmed body: all of it when there is no comma, empty when the body starts with one |
| Mr231_3Properties.LeadingCommaIsIgnored | mr-231-3/src/main/java/org/task/searadar/mr231_3/convert/Mr231_3Converter.java:64-102 | a body that starts with a comma after trimming has the empty message type, so nothing is emitted |
| Mr231_3Properties.OnlyCommasFails | mr-231-3/src/main/java/org/task/searadar/mr231_3/convert/Mr231_3Converter.java:101-102 | a body that trims to commas only splits into no token, and the conversion throws on index 0 |
| Mr231_3Properties.NoDelimiterFails | mr-231-3/src/main/java/org/task/searadar/mr231_3/convert/Mr231_3Converter.java:99 | a sentence whose first `*` is missing or inside the preamble throws before anything is emitted |
| Mr231_3Properties.Sentence | mr-231-3/src/test/java/Mr231_3ConverterTest.java:50-51 | the sentence built from tokens has `$RA` in front and its `*` right after the joined tokens |
| Mr231_3Properties.SentenceTokens | mr-231-3/src/main/java/org/task/searadar/mr231_3/convert/Mr231_3Converter.java:98-102 | a sentence of comma- and star-free tokens is read back as those tokens less the trailing empty ones, when trimming removes nothing; token 0 survives |
| Mr231_3Properties.DecodeSentence | mr-231-3/src/main/java/org/task/searadar/mr231_3/convert/Mr231_3Converter.java:64-103 | such a sentence whose last token is not empty is read back exactly as its tokens, and converts as they do |
| Mr231_3Properties.DecodeTtmTokens | mr-231-3/src/main/java/org/task/searadar/mr231_3/convert/Mr231_3Converter.java:70-72 | a `TTM` sentence whose record decodes gives exactly that one tracked-target report |
| Mr231_3Properties.DecodeRsdTokens | mr-231-3/src/main/java/org/task/searadar/mr231_3/convert/Mr231_3Converter.java:73-80 | an `RSD` sentence whose record decodes gives exactly one message: the report when the scale check passes, the diagnostic when it fails |
| Mr231_3Properties.IffLetter | mr-231-3/src/main/java/org/task/searadar/mr231_3/convert/Mr231_3Converter.java:120-129 | every identity has a one-letter code that reads back as that identity |
| Mr231_3Properties.StatusLetter | mr-231-3/src/main/java/org/task/searadar/mr231_3/convert/Mr231_3Converter.java:131-140 | every status has a one-letter code that reads back as that status |
| Mr231_3Properties.TtmTokens | mr-231-3/src/main/java/org/task/searadar/mr231_3/convert/Mr231_3Converter.java:143-147 | the TTM tokens of a report are 13 tokens tagged `TTM` |
| Mr231_3Properties.RsdTokens | mr-231-3/src/main/java/org/task/searadar/mr231_3/convert/Mr231_3Converter.java:166-175 | the RSD tokens of a report are 15 tokens tagged `RSD` |
| Mr231_3Properties.TtmRoundTrip | mr-231-3/src/main/java/org/task/searadar/mr231_3/convert/Mr231_3Converter.java:112-153 | every tracked-target report whose numbers print as tokens that parse back converts back from its TTM sentence, whatever the checksum |
| Mr231_3Properties.RsdRoundTrip | mr-231-3/src/main/java/org/task/searadar/mr231_3/convert/Mr231_3Converter.java:162-178 | every radar-system-data report whose numbers print back and whose text fields are comma- and star-free converts back from its RSD sentence to `Validated` of itself: the report when the scale is legal, the diagnostic otherwise |
| Mr231_3Properties.RsdTokensAreFields | mr-231-3/src/main/java/org/task/searadar/mr231_3/convert/Mr231_3Converter.java:101 | the RSD tokens of such a report hold no comma or `*`, and `split` drops none of them |
| Mr231_3Properties.RsdTokensDecode | mr-231-3/src/main/java/org/task/searadar/mr231_3/convert/Mr231_3Converter.java:162-178 | the RSD tokens of such a report decode to the report |
| Mr231_3Properties.RsdDecodesTo | mr-231-3/src/main/java/org/task/searadar/mr231_3/convert/Mr231_3Converter.java:166-175 | 15 or more tokens whose positions 1–4 and 9–11 parse to a report's numbers, and whose positions 12–14 are its text fields, decode to that report |
| Mr231_3Properties.TtmDecodesTo | mr-231-3/src/main/java/org/task/searadar/mr231_3/convert/Mr231_3Converter.java:118-150 | 13 or more tokens whose positions 1, 2, 3, 5, 6 parse to a report's numbers, and whose codes at 11 and 12 read as its identity and status, decode to that report |
| Mr231_3Properties.RsdFirstMissing | mr-231-3/src/main/java/org/task/searadar/mr231_3/convert/Mr231_3Converter.java:166-175 | for 14 tokens or fewer, the first RSD read position at or past the end, with no read position skipped before it |
| Mr231_3Properties.TtmFailureKinds | mr-231-3/src/main/java/org/task/searadar/mr231_3/convert/Mr231_3Converter.java:120-147 | fewer than 13 tokens throws on index 11 or 12 before any parse. Otherwise a failure is the number-format error of the first of tokens 1, 2, 3, 5, 6 that does not parse |
| Mr231_3Properties.RsdFailureKinds | mr-231-3/src/main/java/org/task/searadar/mr231_3/convert/Mr231_3Converter.java:166-175 | an index error is on the first missing read position, and every number token before it parsed. A number-format error names a read number token that does not parse |
| Mr231_3Properties.TtmReadsOnlyItsPositions | mr-231-3/src/main/java/org/task/searadar/mr231_3/convert/Mr231_3Converter.java:120-147 | two token lists of one length that agree on tokens 1, 2, 3, 5, 6, 11 and 12 decode alike |
| Mr231_3Properties.RsdReadsOnlyItsPositions | mr-231-3/src/main/java/org/task/searadar/mr231_3/convert/Mr231_3Converter.java:166-175 | two token lists of one length that agree on tokens 1–4 and 9–14 decode alike: tokens 5–8 are never read |
| Mr231_3Properties.TtmSampleDecodes | mr-231-3/src/test/java/Mr231_3ConverterTest.java:27-50 | the TTM test sentence gives target 66, friend, lost, at 28.71 / 341.1, moving 57.6 on 24.5, type Unknown |
| Mr231_3Properties.TtmSampleTokens | mr-231-3/src/test/java/Mr231_3ConverterTest.java:50 | the TTM test sentence is read as its 16 tokens |
| Mr231_3Properties.TtmSampleFieldsDecode | mr-231-3/src/test/java/Mr231_3ConverterTest.java:27-50 | those tokens decode to the expected report |
| Mr231_3Properties.RsdSampleDecodes | mr-231-3/src/test/java/Mr231_3ConverterTest.java:37-51 | the RSD test sentence, with the legal scale 96.0, gives the expected report |
| Mr231_3Properties.RsdSampleTokens | mr-231-3/src/test/java/Mr231_3ConverterTest.java:51 | the RSD test sentence is read as its 15 tokens |
| Mr231_3Properties.RsdSampleFieldsDecode | mr-231-3/src/test/java/Mr231_3ConverterTest.java:37-51 | those tokens decode to the expected report |
| Mr231_3Properties.RsdWrongScaleSampleIsInvalid | mr-231-3/src/test/java/Mr231_3ConverterTest.java:81-86 | the test sentence with scale 0.3 gives only the diagnostic "RSD message. Wrong distance scale value: 0.3" |
| Mr231_3Properties.WrongScaleMessage | mr-231-3/src/main/java/org/task/searadar/mr231_3/convert/Mr231_3Converter.java:194-197 | scale 0.3 fails the check with that exact text |
| Mr231_3Properties.RsdWrongScaleTokens | mr-231-3/src/test/java/Mr231_3ConverterTest.java:81 | that sentence is read as its 15 tokens |
| Mr231_3Properties.RsdWrongScaleFieldsDecode | mr-231-3/src/test/java/Mr231_3ConverterTest.java:81 | those tokens decode to a report with scale 0.3 |
| Mr231_3Properties.VhwSampleIsIgnored | mr-231-3/src/test/java/Mr231_3ConverterTest.java:72-77 | the `VHW` test sentence converts to the empty list |
| Mr231_3Properties.VhwSampleType | mr-231-3/src/test/java/Mr231_3ConverterTest.java:72 | that sentence's message type is `VHW` |
| Mr231_3Properties.RsdaSampleIsIgnored | mr-231-3/src/test/java/Mr231_3ConverterTest.java:72-77 | the `RSDA` test sentence converts to the empty list: a tag that merely starts with `RSD` is not `RSD` |
| Mr231_3Properties.RsdaSampleType | mr-231-3/src/test/java/Mr231_3ConverterTest.java:72 | that sentence's message type is `RSDA` |

## Left out

- `convert(Exchange)` (lines 46-49) only unwraps the Apache Camel message body and calls `convert(String)`.
- The receipt and message timestamps (`System.currentTimeMillis()`, lines 115, 142, 165) are clock reads. The message types carry no timestamp fields.
- How `Integer.parseInt`, `Double.parseDouble` and `Double.toString` work is not modelled; they are the parameters of `Numerics`. The sample lemmas assume what these return for the sample tokens (e.g. that "024.5" parses to 24.5 and 0.3 prints as "0.3").
- `Double`: -0.0 is not distinguished from 0.0. Neither is in the scale table, so whether a report is kept is unaffected. The diagnostic text differs, though: Java prints `-0.0` for a negative zero, while the model has one text for both zeros.
- Concurrency is not modelled: the model is single-threaded. `fields` and `msgType` are shared instance state (lines 32-36), so concurrent `convert` calls on one converter instance race. The unit test uses a single static converter.
- The checksum after `*` is never read or verified by the converter, and is not modelled beyond that.
- A `null` sentence (a `NullPointerException`) is not modelled.
- Mr231_3.Mr231_3Converter.constructor: the Java fields start as `null`. The model starts them as the empty list and the empty string. No path of `convert` reads them before `readFields` assigns them.
- Java strings are sequences of UTF-16 code units, and the model's strings are sequences of Unicode characters. `trim` and `split` here only compare with the space and the comma, so they agree on every string whose characters lie in the Basic Multilingual Plane.
- Mr231_3Properties.TtmSampleDecodes: the test sentence's last token is the two characters U+2013 U+00EA, as they stand in the test file, and the sample uses them verbatim. The sample sentences are built with `Sentence` from their tokens rather than written as one string literal. `Sentence` puts back exactly the `$RA` preamble, the commas, `*` and the checksum.
- Mr231_3Properties.RsdWrongScaleSampleIsInvalid: the test only checks the class of the emitted message. The lemma also states the diagnostic's text, given how 0.3 prints.
- The API message classes (`ru.oogis.searadar.api`) are not part of this model. Module `SearadarApi` defines only the fields the converter sets.
- The switch in `convert` is a method of its own, `Dispatch`, which `Convert` calls after `ReadFields`. This changes nothing in behaviour.
