# Models and proofs for the message parser of lnav

lnav looks for structure in log messages it has no format for: its data parser takes the tokens of a
message, finds brackets, key/value pairs and lists in them, and makes a template of the message.  This
project models that parser (`src/data_parser.cc`) and the parts of the program around it that have state
or unbounded behaviour of their own, and proves what they promise.

* **Tokens, Elements, Ownership** – the token vocabulary; elements and lists with their captures, and what it
  means for a list to be in order; the same lists in memory, where an element points to a list of its own and
  copying an element swaps the sub-elements out of the original.
* **KeyScan, Pairing, Slack, Pairs, PairsProof, Pairer, PairBuilder** – pairing.  `KeyScan` is the
  backward scan over the key components; `Pairing` one step of the loop over a list; `Pairs` the pairs of a
  list as functions; `Slack` and `PairsProof` the proofs that captures stay in order and that nothing is
  duplicated; `Pairer` and `PairBuilder` the loops themselves, as methods.
* **Boards** – what a list says, as keys with their values, values on their own and keys without a value, and what
  the pairing makes of that: pairs, a row of columns, or a heading with a row behind it.
* **Fields, FieldFormats, FieldTrees, FieldPairing** – the parse of lists of fields such as
  `ok, a=1, b=(c=2KB, d=3)`: what is meant, the format that is guessed, the tree that is discovered, the pairs that are
  found.
* **Rows, PrefixedLists, FirstItems, LateSeparators, PlainLists, PlainPairing, Readings, WideGroups** – the other kinds
  of messages: rows of values without keys, lists behind a prefix, a first field that is taken apart, separators within
  values, lists in which nothing ends a value, such as `foo 5 bar: 7`, what all this means for particular messages, and
  groups that stay wider than what they hold.
* **Dfs, Languages, Discover, DiscoverProof, Units, Descent** – the automata that guess the format of a list, and
  what they accept, said without automata; the stack machine that builds the tree of groups; what it keeps, where it
  puts units, and its equivalence with recursive descent.
* **Template, DataParser** – the message template, and the parser object.
* **Scanner, CreditCard** – the bracket stack of the scanner with its searches for a partner, and the Luhn check.
* **CurlLooper** – the life of a transfer request: added, active, polling, closed or finished.
* **ColumnNamer, Csv, ArgParser** – unique column names, the CSV printer with a reader for its output, and
  the distribution of command arguments over parameters.

Every place where the parser pushes an element at the back of a list carries the run-time requirement of
`push_back` as a precondition, so a method that verifies never violates it.  Sub-element lists are values in
the pairing modules; `Ownership` shows for the operations these modules use on lists in memory (copy and push,
building around a list, splicing, erasing, swapping, assigning sub-elements) that each stands for its operation
on values, also when the list that is read belongs to a group at any depth, and that over every run of them no
list is ever shared.

## Findings

* Brackets that are opened at the very end of a message are dropped but leave their format states behind: with
  k of them, every other open list is given the format that belongs to the list k levels further in, or the plain
  one (`Descent.FormatsShift`, `Descent.FormatsSeen`).  So the parser is recursive descent, with every list in
  the format of its own tokens, exactly when the tokens of the lists k levels apart call for the same formats
  (`Descent.FormatsCoincide`); in particular when the message does not end with an opening bracket
  (`Descent.MachineIsDescent`).  `=(` loses its separator that way (`Descent.FormatIsLost`), and `(=[` gets one
  that its own tokens do not have (`Descent.FormatLeaks`).
* A group in which nothing is found keeps the capture of its brackets' contents, although a group inside it may
  have been narrowed to its pairs; the capture is corrected when the group is copied.  `WideGroups.SpansIff` says
  exactly when a group is wider than what it holds, and the message `(( a=1),,:)` has such a group
  (`WideGroups.StaysWide`, `WideGroups.WideExample`).  So the lists that are paired up are in order in a weaker
  sense (`Elements.Fair`) than the lists that come out (`Elements.Ok`).
* Where fields end with semicolons, the part of a value that stands right behind its last comma is lost
  (`Fields.PartsLose`): of `a=1,2;b=3` the number 2 is not found (`FieldPairing.PartIsLost`).  Otherwise the pairs of
  a list of fields are exactly those written in it (`FieldPairing.FieldsParsed`).
* In such a list a separator or a group within the value of a later field is passed over, so of `a=1; b=c (d)` the
  group is lost with all that is in it (`LateSeparators.LateSeparatorIgnored`), while a second separator in the first
  field makes a key of its own (`LateSeparators.EarlySeparatorSplits`).
* Values of one token each that commas end become one pair each exactly when none but the last of them is a word with
  white space before it; otherwise the message is a row, in which words are dropped (`Rows.ItemsParsed`).  That is
  because behind a word that is not the first token of its field a separator is expected (`Languages.CommaAccepts`).
* A key that waits for its value is given up when the text that follows it begins with a word and a value, which
  become a pair of their own (`Readings.WaitingKeyGoes`).
* A key with several elements behind its separator, none of which is a value, is itself taken for a value, and what
  follows it for a row (`Readings.HeadingParsed`).
* The early `return` in `end_of_value` (src/data_parser.cc:843-850) is never taken: no format separates keys by
  the token that terminates values.
* Requests that share a name: closing a name takes the first request by that name out of the list of all
  requests and the first entry by that name out of the poll queue.  The requests stay partitioned exactly when
  there is no such entry or it is an entry of that request (`CurlLooper.CloseNamedInv`), which is always so when
  names are distinct (`CurlLooper.EveryNamedRun`).  Otherwise a run can end with a request that is known but in no
  place (`CurlLooper.SharedNameIsLost`), or with a closed request that becomes active again
  (`CurlLooper.ClosedIsActiveAgain`).  All closes of a check are right exactly when the requests are partitioned
  after each of them (`CurlLooper.EveryCloseInv`); the end of the check alone does not tell, since closing the name
  again removes the lost request (`CurlLooper.TwiceClosed`).
* A flag takes the turn of the parameter that stands before it: with a flag first, a command whose only
  argument is required is accepted without it (`ArgParser.FlagTakesTurn`).  A command that is accepted has a value
  for a parameter name exactly when a parameter of that name is served at its turn or a flag names it
  (`ArgParser.ParseFor`, `ArgParser.GetsValue`).
* A CSV row without columns reads back as a row with one empty column; all other tables come back as they
  were (`Csv.RoundTrip`).
* Dropping quotes next to a value makes the template lose characters; `Template.TemplateRoundTrip` says
  exactly when it does not.  A field on its own with its value in quotes always loses them
  (`DataParser.QuoteIsLost`), as the message `a="b"` does (`DataParser.QuotedExample`).

## Model

| member | source | states |
|---|---|---|
| Tokens.CloserFollowsOpener | src/data_parser.cc:616-620 | the test "one below the number of the closing bracket" is bracket matching for all four kinds of brackets |
| Tokens.ValueOrNot | src/data_parser.cc:1324-1353 | which tokens stand for a value on their own, and which do not |
| Elements.CopyFair | src/data_parser.cc:1188-1237 | copying an element tightens its capture to its sub-elements, never widens it, and changes none of its leaves |
| Elements.GroupFair | src/data_parser.cc:69-78 | a group stays in its place whatever ordered elements within its capture are assigned to it |
| Elements.FitsConcat | src/data_parser.cc:116-119 | splicing keeps "in order wherever the input is, leaves a subsequence of the input's" when it holds of the parts |
| Elements.FitsMake | src/data_parser.cc:1177-1186 | an element built around a list has the leaves of the list and lies in order wherever the list does |
| Ownership.OnePath | src/data_parser.cc:1188-1227 | where no two elements point to one list, two paths from unowned lists to the same list are the same path |
| Ownership.CopyOwned | src/data_parser.cc:1188-1198 | swapping the sub-elements of an element of any list, owned or not, into a new list keeps every list owned once, and leaves unowned what was |
| Ownership.SpliceOwned | src/data_parser.cc:402-403 | moving cells of any list into an unowned one keeps every list owned once |
| Ownership.PutView | src/data_parser.cc:1188-1198 | putting a copy of an element of any list into another list is, on values, inserting the copied value and emptying the original |
| Ownership.DropView | src/data_parser.cc:363-369 | taking elements off a list leaves the values of the others, in order |
| Ownership.AssignOwned | src/data_parser.cc:1218-1227 | assigning an unowned list to an element of any list that it does not hold keeps every list owned once |
| Ownership.AssignView | src/data_parser.cc:1218-1237 | the element then holds the values of the list and spans them, and the list holds what the element had |
| Ownership.StepTidy | src/data_parser.cc:69-533 | each operation of the parser on its lists, at any depth, keeps every list owned at most once, no list inside itself, and the parser's own lists unowned |
| Ownership.EveryRunTidy | src/data_parser.cc:52-563 | so does every run of them, of any length and over groups nested to any depth |
| Ownership.NothingShared | src/data_parser.cc:52-563 | after every run from nothing, a list is reached from the parser's lists by one path only |
| Ownership.NestedPush | src/data_parser.cc:80-85 | pushing an element of a list at any depth, as nested pairing does, pushes its value and empties the original in its place |
| Ownership.CopyCell | src/data_parser.cc:1188-1198 | in memory the copy of an element of any list is the value copy, the original is emptied, and every list stays owned once |
| Ownership.PushBackCell | src/data_parser.cc:1420-1432 | in memory a push from any list is the value push; the pushed element loses its sub-elements |
| Ownership.BuildCell | src/data_parser.cc:1177-1186 | the element built around a list, whatever its format, takes its elements over and leaves it empty |
| Ownership.Splice | src/data_parser.cc:402-403 | splicing in memory moves the elements of any list, copying none and emptying none |
| Ownership.SwapLists | src/data_parser.cc:459 | in memory two lists exchange their values, and every list stays owned once |
| Ownership.AssignElements | src/data_parser.cc:1218-1227 | in memory an element of any list gets the values of a list, with or without a list of its own before, and keeps or takes over the format |
| KeyScan.Strip | src/data_parser.hh:53-63 | the two loops give the list without the spaces at its ends |
| KeyScan.StrippedMiddle | src/data_parser.hh:53-63 | stripping removes exactly a leading and a trailing stretch of white space, to the last one |
| KeyScan.FitsStripped | src/data_parser.hh:53-63 | stripping keeps the order of captures and duplicates nothing |
| KeyScan.RunsFit | src/data_parser.cc:184-240 | the values taken apart, with their keys, use each component at most once and in order |
| KeyScan.TakeApart | src/data_parser.cc:187-239 | one value taken from the end: what is queued, what stays on the stack and what is left together are the runs of the whole list; the rest gets shorter |
| KeyScan.TakeBreak | src/data_parser.cc:114-141 | at an appender or terminator: the value before it, the key after it, as the closed form has them |
| KeyScan.PutBack | src/data_parser.cc:249-266 | the queue goes on the stack, replacing a waiting key when it brings its own, and of the tail only the last component stays |
| KeyScan.ScanKeyComps | src/data_parser.cc:103-266 | the backward scan with its queues ends, computes its closed form, and never both finds a break and takes values apart; which keys and values that gives is stated without it in PlainPairing.KeySaid, PlainPairing.EndSaid and Readings.KeyBehindValues |
| Pairing.FitsAtSeparator | src/data_parser.cc:267-318 | what a separator or a group pushes uses each key component at most once, in order, before the group |
| Pairing.FitsAtEnd | src/data_parser.cc:840-899 | what the end of a value pushes uses each key component at most once, in order |
| Pairing.FitsStep | src/data_parser.cc:80-323 | one step of the loop only rearranges: stack and components stay in order and their leaves stay a subsequence |
| Slack.StepInv | src/data_parser.cc:80-323 | one step keeps stack and components in order and leaves a free character behind every key that has no value yet |
| Slack.AtEndRoom | src/data_parser.cc:686-899 | after the end of a value every key without a value has a character of room, so its placeholder fits |
| PairsProof.PairsLaid | src/data_parser.cc:345-431 | the pairs made from the stack, placeholders included, are in order and within bounds |
| PairsProof.PairsLeaves | src/data_parser.cc:345-431 | the pairs contain the leaves of the stack in order, none twice |
| PairsProof.GatherSound | src/data_parser.cc:433-533 | pairs, a row of free elements or a prefix with a row: always in order, leaves a subsequence of what was there |
| PairsProof.RunInv | src/data_parser.cc:69-326 | after any part of a list the invariant of the loop holds and no leaf has been duplicated or reordered |
| PairsProof.CollectSound | src/data_parser.cc:80-533 | the pairs of a list are in order, well formed, within its bounds, and their leaves are a subsequence of the list's |
| PairsProof.LeftoverSound | src/data_parser.cc:69-326 | what the destructive copies leave in the list is still in order |
| PairsProof.PairupSound | src/data_parser.cc:52-563 | at every depth: pairs and leftovers are in order, and the leaves of the pairs are a subsequence of the list's, none duplicated or reordered |
| PairsProof.PairedSound | src/data_parser.cc:69-78 | pairing up inside a group keeps its token, stays within its capture and keeps its leaves in order |
| PairsProof.PairupShape | src/data_parser.cc:345-533 | every top-level result is a pair of a key and one other element, and there are at most 1000 |
| Boards.ColumnOrDropped | src/data_parser.cc:462-489 | the tokens that become columns are exactly those that are not dropped |
| Boards.GatherTold | src/data_parser.cc:344-533 | at the end of a list, whatever keys and values it has said so far, in any order and behind any prefix: exactly its pairs, an empty value for a key without one and an empty key for a value without one; without keys the values, as columns or in brackets as they are; a single key with a list becomes a heading and a row; a key at the very end gets no pair |
| Pairer.PushValue | src/data_parser.cc:290-294 | a value is pushed without surrounding spaces and without commas, or not at all when nothing is left; the push is in order |
| Pairer.PushKey | src/data_parser.cc:295-312 | what is left of the key components is pushed as one key or value, in order |
| Pairer.PushGroup | src/data_parser.cc:314-318 | a group is pushed as a value of its own and empties the original |
| Pairer.Separate | src/data_parser.cc:100-318 | a separator or a group has exactly the specified effect on stack and components, and reports whether the element was moved |
| Pairer.EndOfValue | src/data_parser.cc:686-899 | the end of a value has exactly the specified effect; its early return cannot happen |
| Pairer.PushElement | src/data_parser.cc:80-323 | one element: all pushes respect the capture order, and stack, components and format change as specified |
| PairBuilder.BuildPairs | src/data_parser.cc:345-431 | the destructive loop over the stack gives the pairs defined position by position, and the values no key has taken |
| PairBuilder.BuildRow | src/data_parser.cc:462-521 | free elements become pairs with empty keys, others are dropped, in order; which they are is stated in Boards.ColumnOrDropped, Rows.RowParsed and Readings.ColumnKinds |
| PairBuilder.GatherPairs | src/data_parser.cc:344-533 | prefix and row handling as specified, with every push in order |
| PairBuilder.CollectPairs | src/data_parser.cc:52-533 | the loop over a list: pairs, what is left in the list and the final format are those of the specification; recursion ends |
| PairBuilder.PairUp | src/data_parser.cc:52-563 | pairing at any depth gives the pairs, leftovers and format of the specification, for every ordered list with a named format |
| PairBuilder.PairGroup | src/data_parser.cc:69-78 | a group holds its pairs afterwards, or what is left of its elements when there are none |
| Fields.PartsLose | src/data_parser.cc:705-716 | of a value with commas one part is lost exactly when something stands behind its last comma |
| FieldFormats.SeenLevel | src/data_parser.cc:1022-1170 | on a list of fields, ended by commas, semicolons or em dashes and with or without keys, the automaton for it never fails, and the counts are those of the fields |
| FieldFormats.LevelFormat | src/data_parser.cc:1382-1420 | such a list is given the format for its fields, in brackets as well as at the top |
| FieldTrees.ReadContent | src/data_parser.cc:587-664 | a value, plain, an amount with its unit or in brackets, is read as its tokens, one measurement or a group of its fields, whatever follows |
| FieldTrees.FieldsDiscovered | src/data_parser.cc:566-684 | a message of fields, with values in brackets nested to any depth, is discovered as the list of its tokens and groups, each list in the format for its fields |
| FieldTrees.EmptyGroups | src/data_parser.cc:598-636 | a message of an empty pair of brackets, as one token or two, is one empty group that stands between them |
| FieldPairing.FieldsRun | src/data_parser.cc:69-326 | after a list of fields, behind a prefix or not, the stack holds all keys and values in turn, a plain last value still among the components |
| FieldPairing.FieldsEnd | src/data_parser.cc:840-899 | the end of a field puts on the stack what the field says: a key and its value, a value alone, or two tokens as a key and its value |
| FieldPairing.ListPaired | src/data_parser.cc:52-563 | at every depth pairing up a list of fields gives exactly what is meant by it, a value in brackets being a group of what is found in it |
| FieldPairing.FieldsCollected | src/data_parser.cc:69-533 | before the limit what is collected from a message of fields is exactly what is written in it |
| FieldPairing.FieldsParsed | src/data_parser.cc:902-908 | a message of any number of fields `key sep value` or of values without keys, ended by commas, semicolons or em dashes, with any white space, with amounts and with values in brackets to any depth, gives exactly the pairs written in it, in order, with empty keys where there are none, up to the first 1000 at each level |
| FieldPairing.PartIsLost | src/data_parser.cc:705-716 | of the message `a=1,2;b=3` the number 2 is in no pair |
| Rows.CommaAccepts | src/data_parser.cc:1078-1170 | fields that commas end are accepted exactly when none but the last has a word behind its first token and no separator |
| Rows.RowParsed | src/data_parser.cc:462-521 | a message without separators that commas do not make a list is a row: one pair with an empty key for each token but words, commas and the others that are dropped, in order, up to 1000 |
| Rows.ItemsParsed | src/data_parser.cc:345-521 | two or more single tokens that commas end give exactly one pair each, with an empty key and the token as its value, in order, up to 1000, if and only if none but the last is a word with white space before it; otherwise they are a row |
| Readings.ColumnKinds | src/data_parser.cc:462-489 | numbers, identifiers, quoted strings, symbols, values and groups are columns; words and commas are not |
| Readings.HeadingParsed | src/data_parser.cc:433-459 | a key with several elements behind its separator, none of them a value, gives a pair of an empty key and that key, and a row of those elements |
| Readings.ItemThenFields | src/data_parser.cc:1394-1411 | one item and then fields `key: value`, all ended by commas: colons separate, and the pairs are an empty key with the item and then the fields |
| Readings.DashesParsed | src/data_parser.cc:1412-1416 | single tokens separated by em dashes, words among them, give one pair each |
| Readings.AmountParsed | src/data_parser.cc:647-660 | `key sep number unit`, with any white space, is one pair whose value is one measurement of the number and its unit |
| PrefixedLists.PrefixedFormat | src/data_parser.cc:1400-1411 | with fewer colons than commas allow for keys, the first colon ends a prefix |
| PrefixedLists.PrefixedDiscovered | src/data_parser.cc:566-684 | so is the format of the list that is discovered |
| PrefixedLists.PrefixedCollected | src/data_parser.cc:80-90 | of such a list exactly what stands behind the prefix is told, at every depth |
| PrefixedLists.PrefixedParsed | src/data_parser.cc:80-90 | a message `prefix: v, v, ..` with at least three values without keys gives exactly the pairs of its fields; the prefix is dropped |
| FirstItems.FirstApart | src/data_parser.cc:187-239 | where the first field has no key and several elements, the pairs are those of that field taken apart, each value with the word before it, and then those of the other fields |
| FirstItems.FirstWordTaken | src/data_parser.cc:187-239 | so a word and a value in the first field are a key and its value |
| LateSeparators.LateSeparatorIgnored | src/data_parser.cc:273-280 | where semicolons end fields, a separator or a group within the value of the last of several fields changes nothing: the pairs are those of the fields without it |
| LateSeparators.EarlySeparatorSplits | src/data_parser.cc:281-289 | a key and a separator before a list of such fields give that key a pair with an empty value, placed behind a separator that follows the key at once, and then the pairs of the fields |
| PlainPairing.KeySaid | src/data_parser.cc:103-318 | in a list that nothing ends fields of: what the text before a separator or a bracket says, in terms of its words and values alone |
| PlainPairing.EndSaid | src/data_parser.cc:840-899 | what the text at the end of such a list says |
| PlainPairing.PiecesRun | src/data_parser.cc:69-326 | after any pieces of text, each ended by a separator, a qualifier or a group, the stack holds exactly what they say |
| PlainPairing.PlainDiscovered | src/data_parser.cc:566-684 | such a message is discovered as the list of its tokens and groups in the plain format |
| PlainPairing.PlainCollected | src/data_parser.cc:80-533 | at every depth what is collected from such a list is what is meant by it |
| PlainPairing.PlainParsed | src/data_parser.cc:902-908 | such a message gives exactly the pairs that are meant: each value has the word before it as its key, only a last word or symbol before a separator is a key, and only what nothing asked for stands alone |
| Readings.KeyBehindValues | src/data_parser.cc:249-266 | a message `w1 v1 .. wn vn key sep value` of words with values and a key that is a word or a symbol gives exactly the pairs wi=vi, in order, and then key=value |
| Readings.WaitingKeyGoes | src/data_parser.cc:242-266 | with another key and separator before it the message gives the same pairs: the key that waited is given up |
| WideGroups.SpansIff | src/data_parser.cc:69-78 | a group that spans its elements spans what it holds after pairing if and only if something was found in it or neither its first nor its last element was narrowed at its side |
| WideGroups.StaysWide | src/data_parser.cc:69-78 | with two commas and a colon behind a list of fields in brackets, and all that in brackets again, the outer group is wider than what it holds when white space precedes the first key |
| WideGroups.WideExample | src/data_parser.cc:69-78 | so it is in the message `(( a=1),,:)` |
| Dfs.PrefixRun | src/data_parser.cc:977-1021 | the prefix automaton is in its start state exactly when all tokens are of the prefix, and until then the others have not failed |
| Dfs.Refused | src/data_parser.cc:1363-1379 | an automaton refuses a list exactly when it fails at some token at or behind the first that is not of the prefix; earlier failures are forgiven and later ones are final |
| Languages.PrefixOrNot | src/data_parser.cc:976-1021 | which tokens belong to a prefix, and which end it |
| Languages.SemiAccepts | src/data_parser.cc:1023-1076 | the automaton for semicolons accepts exactly the lists in which no field starts with a comma or a semicolon and every semicolon has a separator behind the first token of its field; it is forgiven nothing |
| Languages.CommaAccepts | src/data_parser.cc:1078-1170 | the automaton for commas, restarts included, accepts exactly the lists of fields in which a comma, an empty pair of brackets in the place of a value, or a second separator within the prefix ends each field but the last |
| Languages.FormatGuessed | src/data_parser.cc:1382-1420 | what ends fields, separates keys and ends a prefix in any list, in terms of these two kinds of lists and the numbers of commas and colons |
| DiscoverProof.OpenMatches | src/data_parser.cc:588-645 | the token stack holds exactly the brackets that are open |
| DiscoverProof.AdvancedHolds | src/data_parser.cc:573-665 | at every step the lists together hold exactly the tokens kept so far, in order, with ordered captures |
| DiscoverProof.DiscoveredHolds | src/data_parser.cc:566-684 | the tree holds exactly the tokens that are not openers, matched closers or empty containers, in order; its captures are nested and ordered; every list has a named format |
| Units.DiscoveredJoined | src/data_parser.cc:647-660 | in the tree that is discovered no unit stands on its own, at whatever depth, and a measurement has exactly two elements, of which the second is a unit |
| Units.UnitJoinsLast | src/data_parser.cc:647-660 | a unit takes the place of what stood last in its list, with that and itself as its elements; nothing else changes |
| DiscoverProof.FlushHeight | src/data_parser.cc:667-680 | how many format states the final loop leaves, exactly: one, and one more for every empty list on top of the others |
| DiscoverProof.HeightsAgree | src/data_parser.cc:568-684 | the three stacks have equal height at every token; at the end there are as many format states too many as opening brackets end the message |
| Descent.ReadFollows | src/data_parser.cc:573-680 | reading one list by recursion and running the machine over it come to the same, up to the final folding |
| Descent.FormatsShift | src/data_parser.cc:667-683 | with k opening brackets at the end, the machine folds the other open lists in the formats of the lists k levels further in, recursive descent in their own |
| Descent.FormatsSeen | src/data_parser.cc:587-680 | those formats are the ones of the tokens seen in each open list, and plain for the lists that end the message |
| Descent.DescentOrShift | src/data_parser.cc:566-684 | the stack machine equals recursive descent if and only if moving the formats by k levels changes none |
| Descent.FormatsCoincide | src/data_parser.cc:566-684 | the same in terms of the tokens of the open lists |
| Descent.MachineIsDescent | src/data_parser.cc:566-684 | the stack machine equals recursive descent, every list in the format of its own tokens, for messages that do not end with an opening bracket |
| Descent.LostFormat | src/data_parser.cc:667-683 | a message whose brackets all match, followed by an opening bracket, gets the plain format whatever its tokens are |
| Descent.EqualsSeparates | src/data_parser.cc:1389-1392 | a list's keys are separated by equals signs exactly when it has one |
| Descent.FormatIsLost | src/data_parser.cc:667-683 | for the message `=(` the format found is not that of its tokens |
| Descent.FormatLeaks | src/data_parser.cc:667-683 | for the message `(=[` the format found has the separator of the list inside it |
| DataParser.Parser.AddToken | src/data_parser.cc:587-664 | one token changes the stacks as the machine does, and every push is in order |
| DataParser.Parser.AppendToken | src/data_parser.cc:598-663 | an empty container becomes an empty group, a unit joins the element before it, any other token is added as it is; the pushes are in order; where units end up is stated in Units.UnitJoinsLast |
| DataParser.Parser.CloseGroup | src/data_parser.cc:620-641 | a matching closer makes the top list a group of the one below it |
| DataParser.Parser.FlushGroups | src/data_parser.cc:667-683 | unclosed lists are folded into their parents and the last state gives the format |
| DataParser.Parser.DiscoverFormat | src/data_parser.cc:566-684 | for every admissible token stream the object ends with the tree and format of the machine; what these are is stated in Units.DiscoveredJoined, Languages.FormatGuessed and FieldTrees.FieldsDiscovered |
| DataParser.Parser.DropQuotes | src/data_parser.cc:927-946 | from a text of two or more characters one quote at either end is dropped, with the letter of a raw or unicode string before the last one, and nothing else |
| DataParser.Parser.GetStringUpToValue | src/data_parser.cc:917-953 | the text up to the value, and the position moved behind the value |
| DataParser.Parser.AppendTemplate | src/data_parser.cc:535-551 | the template is extended by one hole per pair and the trailing text |
| DataParser.Parser.Parse | src/data_parser.cc:902-908 | every message is parsed without violating a run-time requirement; pairs and template are those of the specification |
| DataParser.ParsedTemplate | src/data_parser.cc:535-554 | the template has one hole per pair, and filling the holes with the values gives back the message exactly when no quote was dropped, so always for messages without quotes |
| DataParser.QuoteIsLost | src/data_parser.cc:917-953 | for every field on its own whose value stands in quotes, filling the hole of its template does not give the message back |
| DataParser.QuotedTemplate | src/data_parser.cc:917-953 | its template exactly: the text before the quote, or before the letter `r` or `u` in front of it, a hole, and what follows the closing quote |
| DataParser.QuotedExample | src/data_parser.cc:917-953 | so it is for the message `a="b"` |
| DataParser.ParseSound | src/data_parser.cc:902-908 | the final pairs are in order within the message, are key/value pairs, at most 1000, and their leaves are tokens of the message in order, none twice |
| Template.TemplateRoundTrip | src/data_parser.cc:535-551 | filling the holes rebuilds the text if and only if no text before a value and not the rest loses a quote |
| Template.UnquotedRoundTrip | src/data_parser.cc:917-953 | without quote characters nothing is lost |
| Template.TrimmedBody | src/data_parser.cc:927-946 | of a text between quotes, with or without the letter of a raw or unicode string at its end, exactly the text is left |
| Scanner.PartnerIsUnique | src/data_scanner.cc:349-411 | a bracket has at most one partner |
| Scanner.OpenerCloses | src/data_scanner.hh:252-267 | the opening bracket looked for is the one that the closing one closes |
| Scanner.PartnersClose | src/data_scanner.cc:349-411 | two brackets are partners if and only if the second closes the first and everything opened between them is closed there and nothing there closes the first |
| Scanner.StaysClosed | src/data_scanner.cc:314-347 | a bracket that was closed is never open again |
| Scanner.StaysOpen | src/data_scanner.cc:356-364 | an opening bracket keeps its height on the stack until its partner comes |
| Scanner.TracksStep | src/data_scanner.cc:319-343 | taking a matched bracket off only with the next token refines the stack machine that takes it off at once |
| Scanner.DataScanner.Tokenize2 | src/data_scanner.cc:314-347 | every token keeps the scanner's stack equal, up to the deferred bracket, to the stack of open brackets |
| Scanner.DataScanner.FindClosing | src/data_scanner.cc:353-381 | a partner is found if and only if there is one, and it is the right one |
| Scanner.DataScanner.FindOpening | src/data_scanner.cc:382-405 | the innermost open bracket of the kind; for a closer that matched, its partner |
| Scanner.DataScanner.FindMatchingBracket | src/data_scanner.cc:349-411 | finds the partner of either kind of bracket when there is one, and changes nothing for any other token; Scanner.PartnersClose says which brackets are partners |
| Scanner.SearchThereAndBack | src/data_scanner.cc:349-411 | the search forward from an opening bracket and the search of another scanner back from the bracket found give the same range, the one between the partners, or both nothing when there is no partner |
| Scanner.CleanupEnd | src/data_scanner.cc:294-312 | exactly the full stops, spaces and line ends at the end are dropped |
| CreditCard.RemoveSpaces | src/data_scanner.cc:262-266 | the digits without the spaces |
| CreditCard.SumOfSeconds | src/data_scanner.cc:274-286 | the two loops over every second digit together make the Luhn sum |
| CreditCard.IsCreditCard | src/data_scanner.cc:259-292 | the computation decides the Luhn predicate for strings of any length |
| CreditCard.CheckDigit | src/data_scanner.cc:259-292 | a number is accepted exactly when its last digit is what the sum of the others lacks to a multiple of ten |
| CreditCard.SingleErrorDetected | src/data_scanner.cc:259-292 | changing one digit of an accepted number always makes it rejected |
| CreditCard.SwapDetected | src/data_scanner.cc:259-292 | swapping two neighbours goes unnoticed exactly when they are equal or are 0 and 9 |
| CurlLooper.SortInserts | src/curl_looper.cc:374-375 | sorting the ordered queue with one entry added inserts that entry and keeps it ordered |
| CurlLooper.CloseNamedInv | src/curl_looper.cc:304-335 | closing a name keeps the requests partitioned if and only if the first poll entry by that name, if there is one, is of the first request by that name |
| CurlLooper.CloseRequestedInv | src/curl_looper.cc:304-335 | closing all names asked for keeps the partition when each is closed right at its turn |
| CurlLooper.EveryCloseInv | src/curl_looper.cc:304-335 | every close of a check is right if and only if the requests are partitioned after every single one of them |
| CurlLooper.TwiceClosed | src/curl_looper.cc:304-335 | a check can end with the requests partitioned although one of its closes was not right |
| CurlLooper.CheckNewInv | src/curl_looper.cc:293-336 | afterwards nothing is new, nothing waits to be closed, and the invariant holds |
| CurlLooper.CheckNewOnly | src/curl_looper.cc:293-336 | with distinct names exactly the requests asked to be closed are gone from every place and all others are still there |
| CurlLooper.FinishInv | src/curl_looper.cc:344-377 | a finished request leaves for good or waits in the queue, the others stay, and the invariant holds |
| CurlLooper.RequeueInv | src/curl_looper.cc:277-291 | every entry due by the time is active afterwards, every other one still waits, and active requests stay active |
| CurlLooper.LoopBodyInv | src/curl_looper.cc:245-256 | a pass of the loop keeps the invariant when its closes are right, and empties the lists of new and of closing requests |
| CurlLooper.EveryRunKeepsInv | src/curl_looper.cc:276-412 | over every run of adding, asking to close, checking, finishing and putting back, in any order, the requests are the disjoint union of new, active and polling ones, the library has exactly the active handles, and the queue is ordered by time, as long as handles are distinct and every close is right |
| CurlLooper.EveryNamedRun | src/curl_looper.cc:276-412 | with distinct names every close of every run is right |
| CurlLooper.BodyRun | src/curl_looper.cc:244-256 | a pass of the loop is a run: finish, check, put back |
| CurlLooper.ProcessRun | src/curl_looper.cc:399-412 | processing everything is a run: check, put back without limit, then finish until nothing is active |
| CurlLooper.ProcessAllInv | src/curl_looper.cc:399-412 | it keeps the invariant when its closes are right; once nothing is active, the library has no handle and every known request waits in the queue |
| CurlLooper.ClosedIsGone | src/curl_looper.cc:304-335 | once the loop has seen a close request, nothing by that name is in any place and its handle is not with the library |
| CurlLooper.StaysGone | src/curl_looper.cc:276-412 | from any state that satisfies the invariant, nothing comes back by a name that is gone in any run that does not add a request of that name |
| CurlLooper.ClosedStaysGone | src/curl_looper.cc:276-412 | over every run with distinct names, a name that was asked to be closed stands for nothing from the next check on, until it is added again |
| CurlLooper.SharedNameIsLost | src/curl_looper.cc:304-335 | for any two requests of one name there is a run after which one is known but neither new, active nor polling |
| CurlLooper.ClosedIsActiveAgain | src/curl_looper.cc:277-335 | and another after which the one that was closed is active again |
| CurlLooper.Looper.AddRequest | src/curl_looper.hh:128-134 | any request is added to the known and the new ones; a fresh one keeps the invariant |
| CurlLooper.Looper.CheckForNewRequests | src/curl_looper.cc:293-336 | the two loops over fields compute the specified state and close exactly the requests that leave the list |
| CurlLooper.ClosedByName | src/curl_looper.cc:304-335 | with distinct names these are exactly the requests whose names were asked to be closed |
| CurlLooper.Looper.CheckForFinishedRequests | src/curl_looper.cc:338-379 | the message loop computes the specified state |
| CurlLooper.Looper.RequeueRequests | src/curl_looper.cc:276-291 | the loop computes the specified state |
| CurlLooper.Looper.RunBody | src/curl_looper.cc:244-256 | one pass of the loop reaches the specified state, and keeps the invariant when its closes are right |
| CurlLooper.Looper.ProcessEverything | src/curl_looper.cc:399-412 | the loop ends with the specified state, or with the batches of messages it was given |
| ColumnNamer.NextCandidate | src/column_namer.cc:111-119 | since the buffer is never cleared, each candidate is the one before with a piece added, so they get longer |
| ColumnNamer.DecimalRead | src/column_namer.cc:111 | numbers are written in decimal digits without leading zeros and can be read back |
| ColumnNamer.PiecesApart | src/column_namer.cc:111 | different numbers make different pieces |
| ColumnNamer.FirstNames | src/column_namer.cc:96-119 | the first candidates of a base that was asked for before are the base with the next number |
| ColumnNamer.Namer.constructor | src/column_namer.cc:44-50 | the built-in names are reserved from the start |
| ColumnNamer.Namer.Limit | src/column_namer.cc:53-80 | no existing name is longer than a bound, so the search for a free one ends |
| ColumnNamer.Namer.AddColumn | src/column_namer.cc:82-126 | the name returned was free and is new, is the first free candidate, and is the one asked for if that was free; all names stay distinct and apart from the reserved ones |
| ColumnNamer.AskAgain | src/column_namer.cc:82-126 | one base asked for again and again is given itself and then itself with `_0`, `_1` and so on, when these are free |
| Csv.WriteRow | src/cmds.io.cc:511-527 | the loop with its flag writes the cells with commas between them |
| Csv.PlainCell | src/cmds.io.cc:72-101 | a cell is printed as it is if and only if it has no comma, quote or line break |
| Csv.WriteCsv | src/cmds.io.cc:490-538 | the output is the printed headers and first rows, how many is determined, and a reader gets those rows back |
| Csv.StopsOnce | src/cmds.io.cc:505-538 | dry run and interrupts determine the number of rows written |
| Csv.CellRead | src/cmds.io.cc:72-101 | a printed cell, quoted or not, is read back as it was |
| Csv.LineRead | src/cmds.io.cc:511-527 | a printed row is read back, whatever follows it |
| Csv.DocumentRead | src/cmds.io.cc:490-538 | any printed table is read back, an empty row as one empty cell |
| Csv.RoundTrip | src/cmds.io.cc:490-538 | a table comes back unchanged if and only if every row has a cell |
| Csv.PrintsApart | src/cmds.io.cc:490-538 | two tables print alike exactly when they differ only in empty rows and rows of one empty cell |
| ArgParser.WalkPlaced | src/cmd.parser.cc:276-386 | every argument before the cursor has exactly one place, flags and only flags are free, parameters take theirs in order, and only a parameter that takes the rest skips any |
| ArgParser.NameAndValue | src/cmd.parser.cc:393-403 | of `name=value` the value is all that is behind the first equals sign; without one there is none |
| ArgParser.FlagsAre | src/cmd.parser.cc:303 | a dash alone and whatever begins with two dashes are flags; a number with its sign is none |
| ArgParser.FlagGives | src/cmd.parser.cc:393-403 | a free argument `name=value` gives exactly that value to the parameter of that name, and nothing to others |
| ArgParser.GetsValue | src/cmd.parser.cc:300-385 | a turn adds values to a name exactly when it is the name of the parameter and the argument there, or for a repeating parameter the first one that is not a flag, is one it can take |
| ArgParser.ArgsGiven | src/cmd.parser.cc:276-411 | an accepted command has a value for a name exactly when a parameter of that name was served at its turn, or a flag among the arguments looked at names it |
| ArgParser.NeededServed | src/cmd.parser.cc:276-411 | without flags an accepted call has a value for every needed parameter that is neither a keyword nor named like a flag |
| ArgParser.FlagTakesTurn | src/cmd.parser.cc:300-385 | a call with a flag before its only required argument succeeds without it |
| ArgParser.TakeTurn | src/cmd.parser.cc:300-385 | the cursor loop of one parameter ends and gives exactly the arguments specified |
| ArgParser.ClaimFlags | src/cmd.parser.cc:388-411 | the second loop ends, moves exactly the free arguments that name a parameter, and keeps the order of the others |
| ArgParser.ParseFor | src/cmd.parser.cc:253-414 | fails exactly when the specification does; otherwise every parameter name has exactly its values, in order, some if and only if it was served or named by a flag, and exactly the unclaimed arguments stay free |

## Left out

- The tokenizer (`tokenize_int` in the generated scanner): the token stream is a parameter.  `Discover.TokensOk` says
  what it is taken to promise: captures in the text, in order and not overlapping, at least a character wide for
  separators, spaces and empty containers, and a unit never directly behind an opening bracket.
- Schema ids and the hash behind them (src/data_parser.cc:344, 375-380, 502-515, 552-558).
- Tracing, printing and the other queries on elements (src/data_parser.cc:963-972, 1239-1321).
- The pairing methods are proved on lists that are values; Ownership covers every run of the operations they use on
  lists in memory, but their bodies are not repeated on it.
- Ownership.AssignElements: requires a list that nothing points to and that does not hold the element, as the lists
  of the source are that are assigned, which are local variables.
- FieldPairing.FieldsParsed: a value is plain, an amount with its unit or in brackets, and not a mix of these; plain
  values hold no colon, equals sign, semicolon, em dash, unit or empty pair of brackets, and commas only where fields
  end with semicolons; all fields of a list have the same separator; where semicolons end fields all have a key, and
  where em dashes do at most one, and then no value in brackets stands without a key.  A field on its own has a
  value that is a single element, and so has a first one without a key; PlainPairing.PlainParsed and
  FirstItems.FirstApart have the others.
- FirstItems.FirstApart: the message as a whole, and a first field that is plain; inside brackets such a field is a
  single element.
- LateSeparators.LateSeparatorIgnored: the interruption is in the last field, and no comma stands before it in its value.
- PlainPairing.PlainParsed: the text holds no commas, semicolons, em dashes or empty pairs of brackets, and no stretch
  of it is white space only; the separators are all colons or all equals signs, in which case colons are qualifiers.
- PrefixedLists.PrefixedParsed: the prefix is made of plain tokens, and there is one colon behind it.
- Elements.IsText: an empty quoted string does not count as a leaf that carries text, because it cannot be told
  from the placeholder of a missing value.
- Pairer.EndOfValue: takes the element at the end of the list as absent where src/data_parser.cc:845 reads through
  the end iterator; line 885 of the same file guards against it.  It is only
  called at a terminator and at the end of a list, as in the source.
- `end_of_value` and the loop of `pairup` repeat the scan and the pushes; here they share `KeyScan.ScanKeyComps`,
  `Pairer.PushValue` and `Pairer.PushKey`.
- Integer widths: captures, sums and counters do not wrap around.
- CurlLooper.Looper.RunBody: transfers and timeouts are libcurl's, and the thread that repeats the body is the
  service's; finished messages, their delays and the clock are parameters.
- CurlLooper.Looper.ProcessEverything: the messages come in as many batches as are given, and the loop also ends when
  they are used up.
- CurlLooper.EveryRunKeepsInv: the handles of known requests are distinct, because each is a handle of its own of the
  transfer library; names may be shared.
- ColumnNamer.Namer.constructor: the list of SQL keywords is a parameter, and only ASCII letters have upper case.
- Csv.WriteCsv: files, pipes, the clipboard and the anonymizer are left out; cells are given as strings, and a row
  has a cell for each header.  The reader takes every character that needs no quotes as text.
- ArgParser.ParseFor: shell splitting is left out; an argument comes with the rest of the command line.  Keyword
  parameters do not repeat: the source would not move its cursor past an argument that is not the keyword.
  Prompt completion is left out.
- The other users of the scanner and the parser, the views, archives, SQL tables and the rest of src/cmds.io.cc.
