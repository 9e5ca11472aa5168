# UnLynx: a verified model of the encrypted query pipeline

UnLynx answers `SELECT SUM ... WHERE ... GROUP BY ...` over ElGamal-encrypted rows that several servers hold together. No
single server can decrypt: rows are shuffled, tagged deterministically, filtered and grouped by their tags, added up over a
tree of servers and finally switched to the querier's key. This project models the servers' protocols, their data
structures and the barriers that order them, and proves that the whole pipeline means the same as the plaintext query.

`dafny verify dfyconfig.toml` checks everything.

## What is modelled

- **The group** (`Primes`, `Group`, `Sums`, `ElGamal`, `KeyShares`). The suite is an arbitrary prime-order group, wide enough
  for differences of 64-bit integers, with a fixed point length; the prime-order subgroup of Ed25519 (section 5.1 of
  RFC 8032) is one. A point is represented by its discrete logarithm, the base point is 1, and scalar multiplication is
  repeated addition. Euclid's lemma gives the cancellation that tags need.
- **Parallel loops** (`Parallel`). The goroutine loops strided by VPARALLELIZE run under an arbitrary scheduler and are proved
  equal to the pointwise map once; all vector operations use that method.
- **Ring protocols** (`Ring`, `Tagging`, `Shuffle`, `ShuffleTag`, `Permutation`, `ShuffleProof`): two-round tagging, the
  shuffle circuit, shuffling and tagging in one pass, and the linear algebra of the shuffle proof. Tokens move as bytes.
- **Tree protocols** (`KeySwitch`, `Aggregation`, `Topology`): key switching and collective aggregation over every tree and
  every arrival order.
- **Stateful structures** (`SurveyStore`, `LocalAggregation`, `DiscreteLog`): the survey store with its pre-aggregation, the
  grouped map with its aggregation proofs, the growing decryption table.
- **Layouts and codecs** (`Codec`, `Responses`, `Layout`, `Strings`, `Decimal`, `TextFile`).
- **The service** (`Query`, `Filter`, `DataProvider`, `Service`, `SurveyRun`, `Querier`): the class `Survey` with its phases,
  a whole run over all servers, and the query as data providers and querier see it.
- **The barriers** (`Barriers`, `Progress`): a transition system over atomic handlers with the three channels, its
  invariants, and the end of every run.

The meaning that every stage keeps is a table of keyed rows (`Table`): two tables are the same when they have the same groups
with the same sums. Store, padding, shuffle, filter, local and collective aggregation are each proved to keep it, and
`Querier.AnswerQuery` puts them together down to integers.

Randomness is never fixed: it is a parameter (`draws`, swap streams), so that every theorem holds for all of it, and the
protocols say what becomes of it: which scalar blinds which ciphertext, who permutes the rows how, and with what a result is
encrypted in the end. Map iteration orders, goroutine schedules and arrival orders are arbitrary choices (`*`). Go's panics (an index out of range, a failed type assertion) appear as preconditions; its error returns as
`Option` results.

## What the theorems assume

- No server draws the zero scalar as survey secret. One zero secret makes all tags equal (`Tagging.ZeroSecretCollapses`).
- One results query per survey and reliable delivery; a handler is one atomic step, and one that would block on a full
  channel of 100 has not been taken yet.
- The uploads that arrive at a server are any finite list of data providers; `Progress.UploadBarrierIff` says for which lists
  the barrier does its work.
- Surveys are created without the application flag; with it, a table read from the gob file has to serve the survey's key
  (`Service.PrecomputationWritingForShuffling`, `Service.StaleTableIff`).
- The predicate uses only the variables of its own where attributes, the query groups or sums something, and a row and the
  list of result ciphertexts have fewer than 2^32 elements, because lengths are sent as 32 bits.
- In collective aggregation length and data messages are paired by list index. At every node, the data of a subtree with a
  selected row must meet the lengths of a subtree that has one too (`Topology.WellPaired`); `Aggregation.PairingIff`,
  `Aggregation.ArrivesIff` and `Topology.LengthsDoIff` show that this is exactly when nothing is lost. In key switching any
  pairing is proved harmless.
- In a key-switching tree with a single node Start has to run before Dispatch reads (`KeySwitch.ContributionReadyIff`).

## Where the code departs from what it promises

- `UnKey` does not undo `Key` (`Decimal.UnKeyInvertsIff`).
- `ProcessResponseDet.FromBytes` cuts the where tags at the wrong place (`Responses.WhereTagsReadIff`).
- `ChildAggregatedDataMessage` sends one triple of lengths for all its entries (`Responses.ChildRoundTripIff`), and a node
  pairs the triples with the messages by list index, not by sender (`Aggregation.PairingIff`).
- The upload barrier counts anonymous tokens: it opens too early exactly when one of the first uploads, as many as data
  providers are expected, is a repetition or comes from an unexpected one (`Progress.UploadBarrierIff`, `Progress.CoversIff`).
- With the application flag a table found in the gob file is used whatever key it was made for (`Service.StaleTableIff`); cached
  points for another key change the plaintext (`Shuffle.CachedForOtherKey`).
- `DecryptIntWithNeg` loses negative values after calls without checkNeg (`DiscreteLog.NegativeFoundIff`).
- `AddInMap` drops columns the stored vector does not have (`LocalAggregation.AddResponsesExactIff`).
- `PullDpResponses` returns the pre-aggregated rows again on a second call (`SurveyStore.Store.PullDpResponses`).
- `SplitScalar` overwrites the scalar it is given (`KeyShares.SplitScalar`).
- The tag of the one-pass protocol depends on the ring: tags made under two roots compare as the plaintexts do exactly when
  both rings give the null point the same tag (`ShuffleTag.RootsComparableIff`), and two neighbours on a ring commute exactly
  when their secrets are equal or have a product equal to their sum (`ShuffleTag.SwapIff`). Its precomputed tables must be made
  for each node's remaining key.
- A test data file does not give back an empty data set, attributes that are not numbered consecutively, or ids that hold a
  newline or end in a carriage return (`TextFile.TextRoundTripIff`).

## Model

| member | source | states |
|---|---|---|
| Querier.AnswerQuery | services/service.go:625-710 | the delivered results decrypt to exactly the plaintext SELECT SUM ... WHERE ... GROUP BY over the rows of all servers, each group once, for every server set, ring, tree, arrival order of data and of lengths, randomness and decryption-table history, when the selected rows' group values and the sums are in the decryptable range, the result groups can be counted in 32 bits, and no subtree with a selected row meets the lengths of one without; and everything sent on the way is made with what is drawn: the uploads sealed under the collective key, the rows mixed at every server, the results encrypted under the querier's key |
| Querier.SurveyRowAt | services/api.go:109-158 | the rows of a survey are, in order, each row of each data provider of each server the given number of times and nothing else; where value i, group value i and sum c are read from the query's attributes number i, i and c, the encrypted form first, then the clear one, then 0, and the count attribute of a counting query is 1 |
| Querier.SurveyRowCount | services/api.go:109-158 | a survey has as many rows as the data providers hold, each counted the given number of times |
| Querier.ComparisonSelects | services/service.go:876-901 | a query for an equality selects a row if and only if the two integers compared are equal, of query and row, of two query values or of two row values |
| Querier.ConnectiveSelects | services/service.go:876-910 | an inequality selects exactly the rows the equality does not, a conjunction those both select, a disjunction those either selects, and no predicate selects all |
| Querier.DeliveredMeaning | services/api.go:96-101 | every delivered response decrypts to an occurring group with its sums, and every occurring group is among them, once |
| Querier.KeyedTotal | services/service.go:748-794 | the keyed sum of points over the selected rows is the point of the integer group sum |
| Querier.KeyedHas | services/service.go:748-794 | a grouping key is present if and only if its integer group occurs among the selected rows |
| Querier.KeyedIff | services/service.go:777-789 | a row is filed under the key of a group if and only if it satisfies the predicate and has exactly those group values |
| Querier.SelectedIntegers | services/service.go:876-901 | the predicate has the same verdict on points and on the 64-bit integers they encode |
| Querier.SurveyMeaning | services/service.go:210-233 | what the servers store means the clear rows of all data providers, in order |
| Querier.SelectingMeaning | services/service.go:777-794 | the servers with a group to send up are exactly those that hold a row satisfying the predicate |
| Querier.FewKeys | services/service.go:847-871 | there are no more groups to switch than different group values among the selected rows |
| Querier.DecryptIntVector | lib/crypto.go:285-292 | every element is looked up in turn without negatives, each lookup growing the table; a vector of points of integers in range decrypts to those integers, whatever the table held |
| Querier.DecryptResults | services/api.go:94-101 | groups and sums of all results are decrypted in order |
| SurveyRun.RunSurvey | services/service.go:625-710 | from the messages of the data providers to the delivery: the delivered responses list each group of the plaintext query over all servers once, with its sums, every ciphertext encrypted under the querier's key with the sum of what all servers drew for it; and every server's rows went around its circuit as drawn |
| SurveyRun.RunLocal | services/service.go:713-794 | the rows pulled are those stored, every server on the ring mixed them in its turn, and after tagging and filtering the map adds up the selected ones: it holds the plaintext query's groups and sums over the server's own rows |
| SurveyRun.GatheredAnswers | services/service.go:797-818 | local answers gathered over a tree with every server on it once answer the query over all rows |
| SurveyRun.AnswerGroups | services/service.go:777-794 | the keys of the answer are exactly the groups of the selected rows, so their number is what one key-switching message has to hold |
| Service.Survey.constructor | services/service.go:259-269 | a new survey has an empty store and the drawn secret and table |
| Service.PrecomputationWritingForShuffling | lib/shuffle/shuffle.go:153-182 | the table serves the survey if and only if it is new or the one found in the gob file does: with the application flag a found one is taken as it is; a new one is made of the scalars drawn, line by line |
| Service.StaleTableIff | lib/shuffle/shuffle.go:163-174 | a table written for one collective key serves a survey under another if and only if the keys are equal or all its scalars are zero |
| Service.Survey.PushData | services/service.go:210-233 | rows are stored in order up to the first one that does not parse, which is reported |
| Service.Survey.ShufflingPhase | services/service.go:713-745 | the rows pulled are those stored; every server on the ring mixes them in its turn; the shuffled rows have the query's shape and are, as a table, the rows uploaded |
| Service.Survey.TaggingPhase | services/service.go:748-794 | the local map is the fold of the selected shuffled rows under their tags, and holds exactly the plaintext query's groups and sums over them, each group under its own key |
| Service.Survey.AggregationPhase | services/service.go:797-818 | the root's map holds the grouped sums of all servers' tables |
| Service.Survey.KeySwitchingPhase | services/service.go:847-871 | the deliverable responses are the groups of the map, in some order, every ciphertext encrypted under the querier's key with the sum of what all servers drew for it |
| Service.ShuffleRows | services/service.go:713-745 | the padded rows go around the circuit, every server mixing them in its turn, and are split with the widths recorded before; the table of the pulled rows is kept |
| Service.TagAll | services/service.go:466-483 | the query's where values are tagged in front of the rows and get comparable tags, whatever the ring |
| Service.FilterRows | services/service.go:777-789 | filtering by tags selects exactly the rows selected in plaintext, in order |
| Service.FoldedIsQuery | services/service.go:777-791 | folding the selected rows gives the plaintext query's groups and sums, each under its own key |
| Query.GroupTagInjective | lib/crypto.go:474-480 | grouping keys are equal if and only if the group values are, for any two lists, when no secret is zero |
| Query.EncryptedRowStored | lib/store/store.go:68-80 | a row with an encrypted where or group attribute is appended, where column i read from the query's where attribute i, group column i from its group attribute i, sum column c from its sum attribute c |
| Query.ClearRowStored | lib/store/store.go:81-103 | any other row opens the entry of its group and where values with its attributes, read by position in the same way, or adds its sums to the entry, attribute by attribute |
| Query.SameEntryIff | lib/store/store.go:81-96 | two clear rows share an entry if and only if all their group and where values agree, a missing one being 0 |
| Query.VerdictOnTags | services/service.go:876-901 | the predicate evaluated on the tags of a row gives the plaintext verdict |
| Query.KeptIsSelected | services/service.go:876-901 | filtering keeps exactly the rows whose plaintext where values satisfy the predicate, in order |
| Query.AllSelected | services/service.go:904-910 | without a predicate every row is kept |
| Query.SelectedMeaning | services/service.go:748-794 | as a table the selected rows are the plaintext query's rows |
| Filter.SameVerdict | services/service.go:876-901 | two readings of the variables that agree on all equalities give every predicate the same verdict |
| Filter.EvaluateIs | services/service.go:884-896 | evaluation by variable name reads query and row values in turn, as the predicate means them |
| Filter.BuildParameters | services/service.go:884-895 | the parameters of a row bind v0, v1, ... to query value and row value in turn |
| Filter.FilterResponses | services/service.go:876-901 | the result lists, in order and unchanged, exactly the rows at the positions the predicate keeps |
| Filter.ComparisonKeeps | services/service.go:884-896 | an equality keeps a row if and only if the two tags compared are equal: query value and row value, two query values, or two row values |
| Filter.ConnectiveKeeps | services/service.go:884-896 | an inequality keeps exactly the rows the equality drops, a conjunction those both keep, a disjunction those either keeps |
| Filter.KeptConcat | services/service.go:884-901 | lists are filtered row by row, in order |
| Filter.FilterNone | services/service.go:904-910 | every row passes, in order |
| Barriers.StepInv | services/service.go:236-417 | every handler and every barrier step keeps the invariant of the survey run |
| Barriers.CreationBarrier | services/service.go:321-331 | in every reachable state, if the creation has returned then every server holds the survey |
| Barriers.UploadBarrier | services/service.go:633-637 | in every run a server starts to shuffle only with as many uploads stored as it expects data providers, and with the rows of all of them if the first so many uploads cover them |
| Barriers.TaggingBarrier | services/service.go:492-509 | in every run a server that pulls its local aggregate has finished its own tagging, and below the root so has every server |
| Barriers.LaunchBarrier | services/service.go:505-508 | a server launches its part of the aggregation only after every server has finished its tagging |
| Barriers.HandlersFindSurvey | services/service.go:336-414 | no upload, results query, confirmation or DDTfinished message reaches a server that does not hold the survey |
| Barriers.ChannelCapacity | services/service.go:259-269 | in no reachable state does a channel hold more than its 100 tokens |
| Progress.UploadBarrierIff | services/service.go:633-637 | every run keeps a server's barrier closed until all expected data providers' rows are stored, if and only if the first uploads to arrive there, as many as data providers are expected, cover them |
| Progress.CoversIff | services/service.go:633-637 | as many uploads as expected data providers cover them if and only if none is repeated and none unexpected |
| Progress.StepDecreases | services/service.go:236-417 | every handler and every barrier step lowers the number of steps that are left |
| Progress.RunsEnd | services/service.go:625-710 | whatever the scheduler does, no run is longer than a bound given by the numbers of servers and uploads |
| Progress.NeverStuck | services/service.go:625-710 | if enough uploads arrive, from every reachable state some step is possible until every server has launched its part: the three barriers never deadlock |
| Progress.MaximalRunsCompleteIff | services/service.go:625-710 | every run that cannot be continued has brought every server to its part of the collective aggregation, if and only if every server receives at least as many uploads as it expects data providers |
| Table.SameMultiset | protocols/tools_protocol.go:140-150 | reordering rows keeps every group and every sum |
| Table.SameRegroup | services/service.go:777-791 | tables with the same groups and sums still have the same groups and sums after any filter and any coarser grouping |
| Table.TalliesListing | lib/store/store.go:262-273 | listing a map of sums in any order gives the table it was built from |
| SurveyStore.ProccessParameters | lib/store/store.go:48-65 | attributes are read in the order of the query, encrypted ones first choice, missing ones as 0 |
| SurveyStore.Store.constructor | lib/store/store.go:39-45 | a new store is empty |
| SurveyStore.Store.InsertDpResponse | lib/store/store.go:68-103 | an encrypted row is appended, a clear row is added to the entry of its group and where values |
| SurveyStore.AggrTallies | lib/store/store.go:81-100 | per group and where tuple the pre-aggregation map holds the sums of all rows inserted in clear |
| SurveyStore.RekeyRight | lib/store/store.go:84-96 | a pre-aggregation key determines its group and where values |
| SurveyStore.PulledIsInserted | lib/store/store.go:111-118 | the rows of one pull have, as a table, the groups and sums of all rows inserted, and every row has the widths of the query |
| SurveyStore.After | lib/store/store.go:68-103 | every row stored by any sequence of insertions has the widths of the query |
| SurveyStore.Store.PullDpResponses | lib/store/store.go:111-118 | encrypted rows are taken out; pre-aggregated rows are copied and stay, so that a second pull returns them again |
| SurveyStore.Store.PushDeterministicFilteredResponses | lib/store/store.go:133-155 | the entries are folded into the stored map one after the other |
| SurveyStore.Store.PushCothorityAggregatedFilteredResponses | lib/store/store.go:248-254 | every new group is added in, in any iteration order |
| SurveyStore.MergedAt | lib/store/store.go:248-254 | a group of one map alone is taken over as it is; one of both keeps its group values and has, column by column, the sum |
| SurveyStore.Store.PullCothorityAggregatedFilteredResponses | lib/store/store.go:262-273 | every group is listed once and the map is emptied |
| LocalAggregation.AddInMap | lib/structs.go:104-111 | a new key stores the response; a present one adds the vectors into a vector of the added one's width |
| LocalAggregation.AddResponsesExactIff | lib/structs.go:97-111 | the addition is exact in every column if and only if the columns the stored vector lacks hold zeros |
| LocalAggregation.FoldTallies | lib/structs.go:104-111 | folding responses gives exactly their groups and grouped sums |
| LocalAggregation.FoldGroups | lib/structs.go:104-111 | a group keeps the encrypted group values of one of its own responses |
| LocalAggregation.FormatAggregationProofs | lib/structs.go:134-150 | one response's attributes are appended to the columns of its group; a group of width 0 stores nothing |
| LocalAggregation.FoldIsColumnSum | lib/structs.go:104-150 | after folding side by side, attribute j of a group is its old value plus the sum of column j |
| LocalAggregation.AggregateLocally | lib/store/store.go:133-146 | the stored map is the fold, and the proof data, kept only when asked for, are the columns of the same entries |
| LocalAggregation.ProofAcceptedIff | lib/aggregation/aggregation_proofs.go:63-66 | the proof of an attribute is accepted if and only if the map held nothing for it before |
| LocalAggregation.ProveGroup | lib/store/store.go:147-151 | the proofs of a group pair its columns with its results and are accepted if and only if the map held nothing before for the attributes whose proofs are checked; so always when the group was absent |
| LocalAggregation.AggregationListProofCreation | lib/aggregation/aggregation_proofs.go:42-60 | proof i pairs column i with result i |
| LocalAggregation.AggregationProofVerification | lib/aggregation/aggregation_proofs.go:63-66 | a proof is accepted if and only if its column adds up to its result |
| LocalAggregation.AggregationListProofVerification | lib/aggregation/aggregation_proofs.go:69-90 | the list is accepted if and only if every proof whose number is below percent * length adds up |
| Decimal.ParseItoa | lib/structs.go:199-206 | parsing undoes printing if and only if the integer has 64 bits |
| Decimal.ParseIntIff | lib/tools/tools.go:69-88 | exactly the nonempty digit strings with at most one sign in front are read, as their value, if it has 64 bits |
| Decimal.ItoaIs | lib/structs.go:199-206 | positional notation: a digit, or the text of the tens followed by that of the units, with a minus sign for a negative number |
| Decimal.Key | lib/structs.go:199-206 | the key is every number followed by a comma |
| Decimal.KeyInjective | lib/structs.go:199-206 | keys are equal if and only if the integer lists are, of any lengths |
| Decimal.UnKey | lib/structs.go:209-227 | only the last character before each comma is parsed |
| Decimal.UnKeyOfKey | lib/structs.go:209-227 | a key is taken apart into the last digits of its numbers |
| Decimal.UnKeyInvertsIff | lib/structs.go:199-227 | UnKey undoes Key if and only if all numbers are single digits |
| Tagging.AddSecretVector | protocols/deterministic_tagging_protocol.go:171-198 | every element gets the server's secret point added |
| Tagging.DeterministicTagSequence | lib/deterministic_tag/deterministic_tag.go:11-29 | every element is partially decrypted and multiplied by the secret |
| Tagging.SecondRoundOpens | protocols/deterministic_tagging_protocol.go:154-285 | after any prefix of the second round the remaining keys open the product of the used secrets times the plaintext |
| Tagging.TwoRoundsTag | protocols/deterministic_tagging_protocol.go:154-285 | two rounds in any order of servers give (product of secrets) * (M + (sum of secrets) * B) |
| Tagging.OrderIrrelevant | protocols/deterministic_tagging_protocol.go:110-118 | neither tag nor collective key depends on the order of the servers, hence not on root or ring |
| Tagging.TagInjective | lib/deterministic_tag/deterministic_tag.go:32-51 | tags are equal if and only if plaintexts are, when no secret is zero |
| Tagging.EqualTagsAcrossRings | services/service.go:587 | ciphertexts tagged under different roots get equal tags if and only if their plaintexts are equal, when no secret is zero |
| Tagging.ZeroSecretCollapses | lib/deterministic_tag/deterministic_tag.go:32-51 | one zero secret gives every plaintext the same tag |
| Tagging.RunRing | protocols/deterministic_tagging_protocol.go:123-285 | the token makes exactly 2n hops, every node adding its secret at its first and tagging at its second visit |
| Tagging.RunTagging | protocols/deterministic_tagging_protocol.go:123-285 | on any ring and for any root the result is the tag of every plaintext, after 2n hops |
| ShuffleTag.PassTagInjective | protocols/shuffling+ddt_protocol.go:193-252 | one-pass tags are equal if and only if plaintexts are, when no secret is zero |
| ShuffleTag.PassTagRowInjective | protocols/shuffling+ddt_protocol.go:193-252 | tagged rows are equal if and only if the plaintext rows are, when no secret is zero |
| ShuffleTag.PassTagAffine | protocols/shuffling+ddt_protocol.go:193-252 | the one-pass tag is the product of the secrets times the plaintext, plus the tag of the null point |
| ShuffleTag.RingsAgreeIff | protocols/shuffling+ddt_protocol.go:193-252 | two rings give every plaintext the same tag if and only if their secrets have the same product and they give the null point the same tag |
| ShuffleTag.AgreeOnAllOrNone | protocols/shuffling+ddt_protocol.go:193-252 | rings with the same product of secrets agree on one plaintext if and only if they agree on the null point |
| ShuffleTag.RootsComparableIff | protocols/shuffling+ddt_protocol.go:98-141 | tags made under two roots are equal exactly for equal plaintexts, if and only if both rings give the null point the same tag |
| ShuffleTag.NextRootIff | protocols/shuffling+ddt_protocol.go:98-141 | the exact equation between a server's secret and the other servers' under which moving it from the front of the ring to its end keeps the tag |
| ShuffleTag.TwoOrdersIff | protocols/shuffling+ddt_protocol.go:193-252 | two servers give a plaintext the same tag in both orders if and only if their secrets are equal or have a product equal to their sum |
| ShuffleTag.SwapIff | protocols/shuffling+ddt_protocol.go:193-252 | the same for two neighbours anywhere on a ring whose later secrets are not zero |
| ShuffleTag.PassTagDependsOnOrder | protocols/shuffling+ddt_protocol.go:193-252 | a witness for every plaintext: the secrets 1 and 2 |
| ShuffleTag.HopPasses | protocols/shuffling+ddt_protocol.go:179-252 | one hop keeps the invariant: under the remaining keys the rows are the plaintext rows, each element tagged by the servers passed, in some order |
| ShuffleTag.KeyShrinks | protocols/shuffling+ddt_protocol.go:291-292 | subtracting the node's public key leaves the public key of the remaining aggregate |
| ShuffleTag.Hop | protocols/shuffling+ddt_protocol.go:153-307 | one node mixes the rows it received under the key that is left with its own swaps and scalars, adds its secret to and tags every element of the mixed rows, and shrinks the key |
| ShuffleTag.RunPass | protocols/shuffling+ddt_protocol.go:114-307 | one pass of n hops: every node in ring order mixes and tags what the one before it made; the message parts at the end are the one-pass tags of the plaintext rows, rows intact, in some order |
| Shuffle.RerandomizeOpens | lib/shuffle/shuffle.go:81-97 | re-randomising under the matching key keeps the plaintext |
| Shuffle.CachedForOtherKey | lib/shuffle/shuffle.go:81-97 | cached points made for another key keep the plaintext if and only if the scalar is zero or the keys are equal |
| Shuffle.ShuffleSequence | lib/shuffle/shuffle.go:17-78 | with a table made for the same points, the output is the plain shuffle under the permutation of the swap stream and the scalars drawn, or those of the lines picked |
| Shuffle.CreatePrecomputedRandomize | lib/shuffle/shuffle.go:103-128 | line i holds the scalars drawn for it and the points of those scalars |
| Shuffle.ShuffleKeepsRows | lib/shuffle/shuffle.go:17-78 | the opened rows are the same rows, each intact, in the order of the permutation |
| Shuffle.RunShuffling | protocols/shuffling_protocol.go:124-277 | around the circuit every node, the root first, shuffles exactly once what the node before it made, with the permutation of its own swaps and its own scalars; the multiset of opened rows is kept |
| Shuffle.CircuitElement | protocols/shuffling_protocol.go:124-277 | every element of the circuit's result is one element of the target, that of the row's source, with b * B and b * h added to it, b the sum of the scalars all nodes put on it on its way |
| Shuffle.SourcesPermute | protocols/shuffling_protocol.go:124-277 | the sources of the rows after any number of nodes are a permutation |
| Permutation.RandomPermutation | lib/crypto.go:539-561 | for every random stream the result is a permutation, that of the swaps |
| Permutation.EveryPermutationReached | lib/crypto.go:539-561 | every permutation is the result of some random stream |
| ShuffleProof.CompressCipherVector | lib/shuffle/shuffle_proofs.go:291-306 | the combination with the challenges, or an error when the lengths differ |
| ShuffleProof.CompressListCipherVector | lib/shuffle/shuffle_proofs.go:309-337 | all rows compressed, or an error if and only if some row has another width |
| ShuffleProof.CompressBeta | lib/shuffle/shuffle_proofs.go:380-399 | the combination of each row's scalars with the challenges |
| ShuffleProof.CompressRow | lib/shuffle/shuffle_proofs.go:291-399 | compression is linear in the randomisers of a row |
| ShuffleProof.CompressionCommutes | lib/shuffle/shuffle_proofs.go:47-101 | compressing output row i gives compressed input row pi[i] re-randomised by the compressed scalars of row pi[i] |
| ShuffleProof.ProverStatement | lib/shuffle/shuffle_proofs.go:47-101 | the lists handed to the pair-shuffle prover are the compressed inputs, outputs and scalars, and satisfy its statement |
| ShuffleProof.CompressOpens | lib/shuffle/shuffle_proofs.go:291-306 | under every key a compressed row opens to the sum of its elements' openings, each times its challenge |
| ShuffleProof.CompressPicks | lib/shuffle/shuffle_proofs.go:291-306 | the challenges that are 1 at j and 0 elsewhere pick element j |
| ShuffleProof.CompressScalarsIs | lib/shuffle/shuffle_proofs.go:380-399 | a row's compressed scalar is the sum of its scalars, each times its challenge |
| ShuffleProof.CompressScalarsPicks | lib/shuffle/shuffle_proofs.go:380-399 | the challenges that are 1 at j and 0 elsewhere pick scalar j |
| KeySwitch.ContributionsAdd | lib/key_switch/key_switch.go:42-53 | two servers' contributions add up to that of one server with both keys and both scalars |
| KeySwitch.KeySwitchSequence | lib/key_switch/key_switch.go:13-39 | one contribution per ephemeral point |
| KeySwitch.AbsorbChild | protocols/key_switching_protocol.go:252-280 | adding a child's message extends the contribution by the child's whole subtree |
| KeySwitch.RunNode | protocols/key_switching_protocol.go:190-296 | a node sends up the contribution of its whole subtree, whatever the two arrival orders |
| KeySwitch.RunKeySwitching | protocols/key_switching_protocol.go:144-229 | element by element the result is the encryption, under the target's key and with the sum of the scalars all servers drew for the element, of what the input opens to under the sum of all servers' keys |
| KeySwitch.VisAre | protocols/key_switching_protocol.go:252-280 | the scalars added up on the way to the root are those of all servers of the tree |
| KeySwitch.ContributionReadyIff | protocols/key_switching_protocol.go:190-229 | under every interleaving of Start and Dispatch the root's contribution is there when read if and only if the root has a child |
| Topology.Switch | protocols/key_switching_protocol.go:144-229 | over a tree with every server once, ciphertexts go from the collective key to the target's, each encrypted with the sum of what all servers drew for it |
| Topology.Aggregate | protocols/collective_aggregation_protocol.go:210-304 | over any tree and any arrival orders whose lengths do for the data they meet, the root's map holds the grouped sums of all servers' tables, each group under its own key |
| Topology.LengthsDoIff | protocols/collective_aggregation_protocol.go:210-225 | in one survey the lengths of a subtree do for another's data if and only if it holds a selected row or the other holds none |
| Topology.TreeTotals | protocols/collective_aggregation_protocol.go:210-304 | what a tree of local maps holds is what the concatenated tables of its servers hold |
| Aggregation.MergeEntry | protocols/collective_aggregation_protocol.go:232-259 | an entry is added into its group, the shorter vector padded with zeros encrypted with the scalars drawn, and nothing else changes; with equal widths this is AddInMap |
| Aggregation.MergeChild | protocols/collective_aggregation_protocol.go:232-261 | a child's map is merged into the node's, every entry once: union of keys, sums padded with zeros encrypted with the scalars drawn |
| Aggregation.SendUp | protocols/collective_aggregation_protocol.go:266-301 | a node below the root sends the bytes of a listing of its map and, apart from them, the lengths of one entry |
| Aggregation.RunAggregation | protocols/collective_aggregation_protocol.go:147-304 | for all arrival orders of data and of lengths, the root's map has the union of all nodes' keys and per key the zero-padded sum of all nodes' vectors, given uniform entries and, at every node, lengths that do for the data they meet |
| Aggregation.PairingIff | protocols/collective_aggregation_protocol.go:210-225 | when lengths and data are paired by index, every message arrives if and only if each nonempty one meets lengths that all its entries have |
| Aggregation.SameShapePairingIff | protocols/collective_aggregation_protocol.go:210-225 | when all nonempty messages share one shape, that is if and only if no nonempty one is given an empty one's lengths |
| Aggregation.ArrivesIff | protocols/collective_aggregation_protocol.go:210-225 | a subtree's message read with another subtree's lengths arrives if and only if it is empty or the other one has an entry, of the same width |
| Aggregation.AscendWithProofs | protocols/collective_aggregation_protocol.go:162-259 | with equal widths the node's map is the fold and the proof data are the columns of its own and all received entries |
| Aggregation.ProveNode | protocols/collective_aggregation_protocol.go:162-187 | a node proves every attribute of every group over its own and its children's data, column beside result, and the proofs are accepted, whatever share is checked |
| Aggregation.CheckData | protocols/collective_aggregation_protocol.go:307-331 | exactly one of the two inputs must be given; grouped data are passed on, a simple list becomes one group under the empty key, an empty one no group |
| Aggregation.SimpleDataRoundTrip | protocols/tools_protocol.go:14-29 | a simple list comes back out of its grouped form if and only if it is not empty |
| Layout.ProcessResponseToCipherVector | protocols/tools_protocol.go:34-43 | where and group ciphertexts of all rows, row by row |
| Layout.DeterCipherVectorToProcessResponseDet | protocols/tools_protocol.go:47-70 | every row gets back exactly the tags of its own ciphertexts |
| Layout.FilteredResponseToCipherVector | protocols/tools_protocol.go:75-88 | group and sum ciphertexts response by response, with their widths |
| Layout.CipherVectorToFilteredResponse | protocols/tools_protocol.go:91-106 | the vector is cut by the recorded widths |
| Layout.SwitchLayoutRoundTrip | protocols/tools_protocol.go:75-106 | flattening and cutting is the identity on responses of any widths |
| Layout.FlattenRegrouped | protocols/tools_protocol.go:75-106 | cutting and flattening is the identity on vectors of the recorded length |
| Layout.SwitchKeepsLayout | protocols/tools_protocol.go:75-106 | after any element-wise change of key, each response opens to what it opened to before |
| Layout.ProcessResponseToMatrixCipherText | protocols/tools_protocol.go:111-137 | one matrix row per response, with a dummy beside a single one, and their widths |
| Layout.MatrixCipherTextToProcessResponse | protocols/tools_protocol.go:140-150 | every matrix row is cut by its recorded widths |
| Layout.MatrixRoundTripRow | protocols/tools_protocol.go:111-150 | a row that was not moved comes back as it was |
| Layout.SplitAfterShuffle | protocols/tools_protocol.go:140-150 | widths recorded before a shuffle split the shuffled matrix into the same rows in another order |
| Layout.PaddingNeutral | protocols/tools_protocol.go:112-121 | the dummy row changes no group and no sum |
| Layout.PaddedRows | protocols/tools_protocol.go:112-121 | at least two rows are shuffled: beside a single one stands a row of its group and where values with zeros |
| DataProvider.EncryptDpClearResponse | lib/structs.go:153-193 | clear attributes are sent as they are, every other one encrypted with the scalar drawn for it, and a counting query adds an encrypted 1 |
| DataProvider.EncryptDataToSurvey | services/api.go:109-158 | every row is encrypted with its own draws and repeated the given number of times |
| DataProvider.RepeatAt | services/api.go:126-147 | row i stands at exactly the given number of positions from i times that number on, and nothing else does |
| DataProvider.MapBytesToMapCipherText | lib/structs.go:476-490 | all values are parsed, or none when one has a wrong length; the code panics on one shorter than a point and also rejects invalid encodings, of which the model has none |
| DataProvider.FromDpResponseToSend | lib/structs.go:438-473 | a row parses if and only if every encrypted value has the right length, where the code panics on one shorter than a point and rejects invalid encodings; an empty encrypted map arrives as nil |
| DataProvider.SentMeaning | lib/structs.go:153-473 | encrypting, sending and parsing a row keeps what it says, whichever attributes are encrypted |
| DataProvider.SentMeanings | services/service.go:216-223 | a whole message parses and keeps what its rows say |
| DataProvider.ParsedPrefix | services/service.go:216-223 | a message is read up to its first row that does not parse, each row as it parses |
| DiscreteLog.DecryptionTable.DiscreteLog | lib/crypto.go:322-385 | answer and new table are those of the specification, and the table stays sound |
| DiscreteLog.DecryptionTable.Decrypt | lib/crypto.go:265-282 | an encryption of an integer in [0, MaxHomomorphicInt) decrypts to it |
| DiscreteLog.Search | lib/crypto.go:340-384 | the search stops at the first match or the bound and stores every guess on its way |
| DiscreteLog.LookupSound | lib/crypto.go:322-385 | every entry stays right and 0 up to the greatest guess stay present |
| DiscreteLog.PositiveFound | lib/crypto.go:322-385 | from every sound table an integer in range is decoded, with or without checkNeg |
| DiscreteLog.DecryptIgnoresHistory | lib/crypto.go:265-273 | no history of calls changes what an integer in range decrypts to |
| DiscreteLog.DecryptIntIff | lib/crypto.go:265-273 | while only DecryptInt was used, it returns the plaintext if and only if that is in [0, MaxHomomorphicInt) |
| DiscreteLog.AllFoundIff | lib/crypto.go:285-292 | in a vector decrypted from a table without negatives, an element that holds m is answered by m if and only if m is in [0, MaxHomomorphicInt) |
| DiscreteLog.NegativeFoundIff | lib/crypto.go:275-282 | -m is decoded if and only if it is in the table, or checkNeg is on and the table has not grown past m; otherwise the answer is 0 |
| DiscreteLog.NegativesWithCheckNeg | lib/crypto.go:275-282 | -m is decoded after every history in which checkNeg was always on |
| DiscreteLog.NegativeLostAfterPositive | lib/crypto.go:275-282 | after decrypting 5 without checkNeg, -3 is answered by 0 |
| DiscreteLog.OutOfBoundIsZero | lib/crypto.go:374-377 | a point that encodes no integer in range is answered by 0 |
| ElGamal.OpenEncrypt | lib/crypto.go:131-139 | decryption undoes encryption under the matching key, whatever the randomness |
| ElGamal.OpenOtherIff | lib/crypto.go:131-139 | another key decrypts to the plaintext if and only if the scalar is zero or the keys are equal |
| ElGamal.OpenAdd | lib/crypto.go:397-400 | the sum of two ciphertexts opens to the sum of the plaintexts |
| ElGamal.OpenMul | lib/crypto.go:403-406 | a scaled ciphertext opens to the scaled plaintext |
| ElGamal.Acum | lib/crypto.go:462-468 | the accumulated ciphertext is the sum of all elements |
| ElGamal.OpenSum | lib/crypto.go:462-468 | the accumulated ciphertext opens to the sum of the openings |
| Group.IntToPointIs | lib/crypto.go:142-147 | the point of an integer is its scalar times the base point |
| Group.IntToPointInjective | lib/crypto.go:142-147 | integers closer together than the group order have different points |
| Group.MulCancel | lib/deterministic_tag/deterministic_tag.go:32-51 | multiplication by a nonzero scalar is injective |
| KeyShares.GenKeys | lib/crypto.go:102-113 | the private keys are those drawn, the public keys theirs, and the group key is the public key of their sum |
| KeyShares.SplitScalar | lib/crypto.go:116-125 | all shares but the last are drawn, and the shares add up to the given scalar, which is itself overwritten by the last share |
| Parallel.ParallelUpdate | lib/crypto.go:420-434 | whatever the scheduler does, the strided goroutines update every element exactly once from its own value |
| Parallel.ParallelMap | lib/crypto.go:187-204 | the strided goroutines fill every index with its own value |
| Codec.PointRoundTrip | lib/crypto.go:698-728 | a point survives its bytes, which are those of its representative, not the curve encoding |
| Codec.VectorRoundTrip | lib/crypto.go:567-622 | a vector survives its bytes |
| Codec.CipherVectorToBytes | lib/crypto.go:567-579 | the bytes of all elements in order, and their number |
| Codec.CipherVectorFromBytes | lib/crypto.go:582-593 | as many elements as asked are read from the start of the data |
| Codec.PointsRoundTrip | lib/crypto.go:698-728 | a list of points survives its bytes |
| Codec.UnsafeCastIntsToBytes | lib/tools/tools.go:35-43 | four big-endian bytes per integer |
| Codec.UnsafeCastBytesToInts | lib/tools/tools.go:46-53 | one integer per four bytes |
| Codec.IntsRoundTrip | lib/tools/tools.go:35-53 | lengths come back modulo 2^32 |
| Codec.IntAt | lib/tools/tools.go:35-43 | integer i takes bytes 4 * i to 4 * i + 3, the most significant first |
| Codec.ArrayCipherVectorToBytes | lib/crypto.go:731-768 | all vectors' bytes in order and their lengths |
| Codec.FromBytesToArrayCipherVector | lib/crypto.go:771-810 | the data cut by the lengths |
| Codec.ArrayRoundTripIff | lib/crypto.go:731-810 | a jagged array survives the wire if and only if all its vectors are shorter than 2^32 |
| Codec.DetKeyInjective | lib/crypto.go:474-480 | keys joined without separators are equal only for equal vectors |
| Responses.EntryRoundTrip | lib/structs.go:280-317 | an entry survives its bytes and lengths |
| Responses.EntryFormat | lib/structs.go:233-292 | on the wire the attributes come first, then the group, then the tag |
| Responses.ChildToBytes | protocols/collective_aggregation_protocol.go:338-385 | the bytes of all entries in order, and the lengths of any one of them |
| Responses.ChildFromBytes | protocols/collective_aggregation_protocol.go:388-421 | as many entries as whole elements fit |
| Responses.ChildRoundTripIff | protocols/collective_aggregation_protocol.go:338-421 | a child message read with any lengths survives if and only if it is empty or all its entries have those lengths, of nonzero size |
| Responses.WhereTagsReadIff | lib/structs.go:380-434 | the where tags come back if and only if the group tag is empty and there is a where tag |
| Strings.SplitJoin | lib/structs.go:387-391 | splitting undoes joining on a nonempty list without the separator's first character |
| TextFile.Int64ArrayToString | lib/tools/tools.go:56-66 | every number followed by a blank |
| TextFile.StringToInt64Array | lib/tools/tools.go:69-88 | the numbers among the parts; one that does not parse empties the list |
| TextFile.PartsRead | lib/tools/tools.go:69-88 | as long as all parts parse they are read one after the other, in order, empty ones as nothing |
| TextFile.BadList | lib/tools/tools.go:69-88 | one nonempty part that is no 64-bit number empties the whole list |
| TextFile.LineRoundTrip | data/handle_data.go:145-161 | a line survives printing, cutting its last character and parsing |
| TextFile.ConvertDataToMap | lib/tools/tools.go:91-98 | the data are named consecutively |
| TextFile.ConvertMapToData | lib/tools/tools.go:101-108 | the values of the consecutive names, 0 for a missing one |
| TextFile.DataRoundTrip | lib/tools/tools.go:91-108 | a list survives the map |
| TextFile.MapRoundTripIff | lib/tools/tools.go:91-108 | a map survives the list if and only if its attributes are numbered consecutively |
| TextFile.WriteDataToFile | data/handle_data.go:173-214 | the text of a header line per data provider and six lines per row, in any order of the map |
| TextFile.ReadDataFromFile | data/handle_data.go:218-281 | the reader's result on any text, also past its end |
| TextFile.ShortRowRead | data/handle_data.go:231-275 | lines missing from the last row are read as empty lines |
| TextFile.RowFormat | data/handle_data.go:173-214 | the six lines of a row are its group, where and sum attributes, each time the clear ones under their consecutive names and then those to be encrypted, numbered on |
| TextFile.WrittenIsRead | data/handle_data.go:173-281 | when no id holds a newline or ends in a carriage return, reading a written text gives all data providers with their attributes renumbered, or a nameless one from an empty map |
| TextFile.TextRoundTripIff | data/handle_data.go:173-281 | writing and reading is the identity if and only if there is a data provider, all attributes are numbered consecutively, and no id holds a newline or ends in a carriage return |
| TextFile.ScanLines | data/handle_data.go:231-233 | lines without a newline are scanned one by one, each without a carriage return at its end |
| TextFile.ReadBackOneLine | data/handle_data.go:231-281 | if a text is read back as what was written, no id holds a newline or ends in a carriage return |

## Left out

- onet networking, timeouts, timers, logging, protobuf, roster and tree construction: only delivery, arrival order and the
  shape of the tree remain.
- kyber's arithmetic and encodings: a point has the bytes of its representative, every point of the right length parses, and
  malformed points or scalars are not modelled.
- The zero-knowledge provers and verifiers (tagging, key switching, pair shuffle); only the linear relations of the shuffle
  and the aggregation proofs are modelled. Tagging passes the private key and the secret contribution in swapped positions to
  its proof creation, so nothing is claimed about those proofs.
- The challenges of the shuffle proof (hashing): they are arbitrary scalars.
- Differential privacy and the DRO phase: disabled by a constant, and the noise is added to loop copies.
- govaluate: predicates are trees of ==, !=, && and || over the tags; its parser, other operators and string ordering are not
  part of this model.
- Gob encoding, file opening, command line, simulations, random data generation, bufio's limit on line length.
- `AddInClear`, `ComputeExpectedResult` and `CompareClearResponses`: test support for predicates that ask for all ones; the
  plaintext query here is defined independently.
- Adding and removing servers, base64 forms of points and scalars, `String` methods: one-line identities.
- Secrecy and unlinkability: only correctness is claimed.
- Lost updates between the separate get and put of a survey record, and data races inside onet: handlers are atomic.
- Aliasing of Go slices between a pulled result and the store it came from: rows are values.
- ShuffleTag.RunPass: the tables of all nodes must be made for the key that reaches them, because the code subtracts each
  node's public key from the shuffling key as it goes.
- DataProvider.FromDpResponseToSend: gives an error for every value of a wrong length, where the code panics on one shorter than
  a point, and accepts every value of the right length, where the code rejects invalid encodings, because a point is
  represented by its discrete logarithm.
- DataProvider.MapBytesToMapCipherText: treats values of a wrong length and invalid encodings the same way.
- Codec.PointRoundTrip: the bytes are those of the discrete logarithm; the encoding of curve points belongs to kyber.
- Service.PrecomputationWritingForShuffling: the gob file is the table it holds; its bytes and read errors are not modelled.
- TextFile.WrittenIsRead: other ids are left to TextFile.TextRoundTripIff, which covers all of them.
- Progress.NeverStuck: ends when every server has launched its part of the collective aggregation; the phases after that
  have no barrier.
- LocalAggregation.AggregationListProofVerification: the share is a real number; floating-point rounding of the product is
  not modelled.
