# lamtram: a verified model of the discrete core

lamtram is a neural language-model and translation toolkit. It builds its
networks in the `cnn` tensor engine; most of the code around that engine is
discrete. This project models that discrete part in Dafny and proves the
properties it promises:

- **String helpers** (`string-util.h`):
  - the character tokenizer, which walks a C string;
  - the substring-delimiter tokenizer;
  - `WILD` file-name expansion;
  - `FirstToken`;
  - backslash and quote escaping.
- **The training driver** (`lamtram-train.cc`):
  - the length comparators that order sentence ids;
  - the id sort;
  - both greedy, length-budgeted `CreateMinibatches` loops;
  - the model-type and required-option checks of `main`;
  - the `GetTrainer` name dispatch.
- **The linear (recurrent) encoder** (`linear-encoder.cc`):
  - which token it feeds at each step, forward or reverse, with padding in batch mode;
  - where it stores each state;
  - the graph check;
  - its `linenc_001` record.
- **The attentional encoder-decoder** (`encoder-attentional.cc`):
  - attention-type parsing into parameter shapes;
  - the context size;
  - the per-position combination of several encoders' states;
  - the 512-position ceiling;
  - the control flow of one attention step;
  - the encoder-to-decoder bridge and its decoder seeds;
  - the `extatt_002` and `encatt_001` records, and their write/read/write round trip.
- **Softmax selection** (`softmax-factory.cc`, `softmax-class.cc`):
  - the signature dispatch;
  - the `class:<file>` check of the class-factored softmax;
  - the methods that always throw.

### Modelling conventions

- **Objects and loops.** The source's classes are Dafny classes whose methods
  update their fields, and its loops are Dafny loops. Every such method is
  proved against a specification function. Each specification function has
  its own properties proved as lemmas.
- **Tensors.** Tensor expressions are symbolic terms (module `Graph`); no
  number is ever computed.
- **Encoders.** A recurrent builder's output is `Hidden(width, fed)`: the
  list of id vectors fed so far. A stored state therefore tells exactly
  which tokens produced it.
- **Streams and records.** A model stream is a sequence of lines. `>>`
  extraction is the whitespace-separated words of a line. `THROW_ERROR` and
  a failing `assert` become an `Err` of module `Errors`.

Modules, by file:

| file | module | source |
|---|---|---|
| errors.dfy | Errors | error kinds, `Result`, `Option` |
| seqs.dfy | Seqs | `Flatten` and sequence lemmas |
| text.dfy | Text | printing and reading integers, words of a line |
| graph.dfy | Graph | symbolic tensor terms |
| string_util.dfy | StringUtil | src/lamtram/string-util.h |
| lamtram_train.dfy | LamtramTrain | src/lamtram/lamtram-train.cc |
| linear_encoder.dfy | LinearEncoding | src/lamtram/linear-encoder.cc |
| encoder_attentional.dfy | Attentional | src/lamtram/encoder-attentional.cc |
| softmax_class.dfy | SoftmaxClass | src/lamtram/softmax-class.cc |
| softmax_factory.dfy | SoftmaxFactory | src/lamtram/softmax-factory.cc |

### The two minibatch loops

The bilingual loop sets `max_size = 0` after it closes the first batch
(lamtram-train.cc:184). From then on every later sentence forms a batch of
its own.

`LamtramTrain.CreateMinibatches` models the loop exactly as written. Three
lemmas describe it:

- `GreedyCollapse` proves the collapse.
- `BudgetResetExample` shows five pairs of size 2 with budget 4: the
  batches are 2, 1, 1 and 1 pairs.
- `BudgetKeptExample` shows the same pairs without the reset: 2, 2 and 1 pairs.

`GreedyBudget` proves that every batch of two or more items stays within
the budget when counted at the running maximum before its last item. It
holds whether or not the reset happens.

## Model

| member | source | states |
|---|---|---|
| StringUtil.CStr | src/lamtram/string-util.h:37 | The characters a walk over `c_str()` sees: the longest NUL-free prefix, ended by the first NUL if there is one. |
| StringUtil.SplitCount | src/lamtram/string-util.h:23-35 | The pieces number one more than the occurrences of the separator. |
| StringUtil.SplitNoSeparator | src/lamtram/string-util.h:28-30 | No piece contains a separator character. |
| StringUtil.SplitJoin | src/lamtram/string-util.h:23-35 | Joining the pieces with `c` gives the input back, so a trailing `c` gives a trailing empty piece. |
| StringUtil.JoinSplit | src/lamtram/string-util.h:23-35 | Splitting a join of separator-free pieces gives the pieces back. |
| StringUtil.TokenizeCStr | src/lamtram/string-util.h:23-35 | The pointer walk gives nothing for the empty string, and otherwise exactly the pieces of the input between occurrences of `c`. |
| StringUtil.ScanTo | src/lamtram/string-util.h:28-29 | The inner walk stops at the first `c` at or after `begin`, or at the end. |
| StringUtil.Tokenize | src/lamtram/string-util.h:36-38 | The `std::string` overload tokenizes the C-string view, so an embedded NUL ends the input. |
| StringUtil.FindFrom | src/lamtram/string-util.h:43 | `find(delim, prev)` is the leftmost occurrence at or after `prev`, or none at all. |
| StringUtil.TokenizeDelim | src/lamtram/string-util.h:39-49 | Gives nothing for the empty string, and otherwise the pieces between the leftmost non-overlapping occurrences of `delim`. A non-empty input requires a non-empty delimiter. |
| StringUtil.PiecesJoin | src/lamtram/string-util.h:39-49 | Joining the pieces with `delim` gives the input back. |
| StringUtil.PiecesNoDelim | src/lamtram/string-util.h:43-45 | No piece contains the delimiter. |
| StringUtil.DelimTokensSingleChar | src/lamtram/string-util.h:23-49 | With a one-character delimiter both tokenizers agree, giving occurrences + 1 pieces. |
| StringUtil.FirstToken | src/lamtram/string-util.h:50-55 | The longest prefix free of NUL and of `c`. For a non-empty C string it is the first character token. |
| StringUtil.WildcardedCount | src/lamtram/string-util.h:11-18 | With a `WILD` there is one name per wildcard. Without one there is at least one name, and the empty pattern gives `[""]`. |
| StringUtil.TokenizeWildcarded | src/lamtram/string-util.h:9-21 | Name `i` is the text before the first `WILD`, then wildcard `i`, then the text after those four characters. Without a `WILD` the pattern is split at every delimiter character. |
| StringUtil.EscapeTwoPasses | src/lamtram/string-util.h:58-59 | Doubling backslashes and then escaping quotes escapes each character on its own. |
| StringUtil.EscapedLength | src/lamtram/string-util.h:57-61 | The output length is the input length plus the number of backslashes and quotes. |
| StringUtil.UnescapeEscaped | src/lamtram/string-util.h:57-61 | The escaping is invertible: unescaping its output gives the input. |
| StringUtil.EscapeQuotes | src/lamtram/string-util.h:57-61 | The two `replace_all` passes produce the per-character escaping, with the stated length and inverse. |
| StringUtil.SubstrPrefix | src/lamtram/softmax-factory.cc:17-19 | `substr(0, \|p\|) == p` holds exactly when `p` is a prefix, so a shorter string never matches. |
| LamtramTrain.DoubleLengthSentences | src/lamtram/lamtram-train.cc:127-131 | Longer source first, ties broken by longer target. |
| LamtramTrain.DoubleLengthLabels | src/lamtram/lamtram-train.cc:133-136 | Longer source first; the label does not break ties. |
| LamtramTrain.SingleLength | src/lamtram/lamtram-train.cc:138-146 | Longer sentence first. |
| LamtramTrain.PrecedesStrictWeakOrder | src/lamtram/lamtram-train.cc:127-146 | The comparators are strict weak orders: irreflexive, transitive, with transitive incomparability. |
| LamtramTrain.Iota | src/lamtram/lamtram-train.cc:163-164 | The ids `0 .. n-1`. |
| LamtramTrain.SortIds | src/lamtram/lamtram-train.cc:165 | The sorted ids are a permutation of `0 .. n-1` in comparator order. |
| LamtramTrain.GreedyPartition | src/lamtram/lamtram-train.cc:169-191 | The batches laid end to end are the sorted ids: every id lands in exactly one batch, in order. |
| LamtramTrain.FirstPartition | src/lamtram/lamtram-train.cc:204-220 | The same partition property for the monolingual pass. |
| LamtramTrain.GreedyNonEmpty | src/lamtram/lamtram-train.cc:175-190 | No bilingual batch is empty. |
| LamtramTrain.FirstNonEmpty | src/lamtram/lamtram-train.cc:210-219 | No monolingual batch is empty. |
| LamtramTrain.GreedyAligned | src/lamtram/lamtram-train.cc:171-191 | Source, target and cache batches have the same boundaries. |
| LamtramTrain.FirstAligned | src/lamtram/lamtram-train.cc:207-220 | Target and cache batches have the same boundaries. |
| LamtramTrain.GreedyBudget | src/lamtram/lamtram-train.cc:168-185 | `max_len` is a running maximum of `CalcSize`. Every batch of two or more items stays within the budget when its length is multiplied by the running maximum before its last item. That maximum covers every size in earlier batches and every size in the batch but the last. |
| LamtramTrain.GreedySingletons | src/lamtram/lamtram-train.cc:175-184 | With the budget at 0, every batch holds one item. |
| LamtramTrain.GreedyCollapse | src/lamtram/lamtram-train.cc:184 | After the first batch closes, every later batch holds a single item. |
| LamtramTrain.BudgetResetExample | src/lamtram/lamtram-train.cc:175-184 | Five pairs of size 2 with budget 4 give batches of 2, 1, 1 and 1 pairs. |
| LamtramTrain.BudgetKeptExample | src/lamtram/lamtram-train.cc:175-184 | Without the reset, the same pairs would give batches of 2, 2 and 1. |
| LamtramTrain.FirstBudget | src/lamtram/lamtram-train.cc:205-210 | Every monolingual batch of `n >= 2` sentences has `n * first_size <= max_size`. |
| LamtramTrain.GatheredCover | src/lamtram/lamtram-train.cc:169-191 | The gathered sentence batches laid end to end are the sentences in sorted-id order. |
| LamtramTrain.FirstGatheredCover | src/lamtram/lamtram-train.cc:204-220 | The same for the monolingual pass. |
| LamtramTrain.CreateMinibatches | src/lamtram/lamtram-train.cc:155-192 | Sorts the ids and groups them by the code's greedy pass, budget reset included. Returns each group's sources, targets and, only when a cache is given, its cache entries. |
| LamtramTrain.GroupSorted | src/lamtram/lamtram-train.cc:166-191 | The grouping loop over the sorted ids. Its sources, targets and cache entries are those of the groups `GreedyBatches` forms under the same budget and reset. |
| LamtramTrain.GroupStep | src/lamtram/lamtram-train.cc:169-185 | One iteration: the sentence joins every stream's pending batch. The batch closes and the budget drops to 0 exactly where `GreedyBatches` closes it. |
| LamtramTrain.CreateMinibatchesMono | src/lamtram/lamtram-train.cc:194-221 | Sorts by length and groups by the size of each group's first sentence. Returns the sentences and, when a cache is given, the cache entries. |
| LamtramTrain.ParseModelType | src/lamtram/lamtram-train.cc:74-78 | Accepts exactly `nlm`, `encdec`, `encatt` and `enccls`. |
| LamtramTrain.ModelTypeRoundTrip | src/lamtram/lamtram-train.cc:74-78 | Every model kind's name is accepted as that kind. |
| LamtramTrain.CheckOptions | src/lamtram/lamtram-train.cc:74-97 | Success holds exactly when every check passes: a known model type, at least one target training file and a model output file. Source-side models also need source training files, and a source dev file whenever a target dev file is given. Each failing check raises its own error, and does so exactly when every earlier check passed, in the code's order. On success the setup holds the parsed type, both file lists, the dev files and the output file. |
| LamtramTrain.MissingTrainFileOnlyWild | src/lamtram/lamtram-train.cc:82-89 | The missing-training-file error fires only for a pattern with `WILD` and no wildcards. |
| LamtramTrain.EmptyTrainFileAccepted | src/lamtram/lamtram-train.cc:85-89 | The default empty `train_trg` passes the check, with the single file name `""`. |
| LamtramTrain.CheckOptionsNamed | src/lamtram/lamtram-train.cc:85-97 | With empty file names discarded, success means a non-empty list of non-empty training files. |
| LamtramTrain.EmptyTrainFileRejected | src/lamtram/lamtram-train.cc:88-89 | The corrected check rejects an empty `train_trg`. |
| LamtramTrain.CheckOptionsNamedAgrees | src/lamtram/lamtram-train.cc:85-97 | Where no file name is empty, the corrected check agrees with the code's. |
| LamtramTrain.GetTrainer | src/lamtram/lamtram-train.cc:636-652 | Accepts exactly `sgd`, `momentum`, `adagrad`, `adadelta` and `adam`; any other name is an illegal trainer. |
| LamtramTrain.TrainerRoundTrip | src/lamtram/lamtram-train.cc:636-652 | Every trainer's name selects that trainer. |
| LinearEncoding.SingleFeed | src/lamtram/linear-encoder.cc:31-34 | Forward feeds positions left to right, reverse feeds them right to left, each exactly once; the reverse order is the forward order reversed. |
| LinearEncoding.SlotHoldsPosition | src/lamtram/linear-encoder.cc:31-35 | The state stored at position `p` is the output right after the token at `p` was fed. |
| LinearEncoding.SlotsArePositions | src/lamtram/linear-encoder.cc:31-35 | The stored slot is the fed position. Every step writes a distinct slot inside the buffer, and every slot is written. |
| LinearEncoding.BatchFeedLayout | src/lamtram/linear-encoder.cc:52-56 | Per sentence, a batch walk feeds padding 0 first, then each token once: in order forward, reversed in reverse. |
| LinearEncoding.BatchFeedCovers | src/lamtram/linear-encoder.cc:43-56 | With the walk as long as the longest sentence, every token of every sentence is fed. |
| LinearEncoding.MaxLen | src/lamtram/linear-encoder.cc:43-45 | The longest length of the batch: no sentence is longer, and one has it. |
| LinearEncoding.AsWrittenBatchLength | src/lamtram/linear-encoder.cc:44-45 | The code's loop leaves the last sentence's length. |
| LinearEncoding.AsWrittenBatchLengthDropsTokens | src/lamtram/linear-encoder.cc:44-56 | For `[[5,6],[7]]`, the walk has one step, which feeds 6 and 7. Token 5, the first sentence's first token, is never fed. |
| LinearEncoding.AsWrittenSlots | src/lamtram/linear-encoder.cc:31-35 | The code stores at slots `n, n-1, ..., 1`. |
| LinearEncoding.AsWrittenSlotsOutOfRange | src/lamtram/linear-encoder.cc:27-35 | For one sentence of length `n`, the first store is at slot `n`, one past a buffer of `n`, and slot 0 is never written. |
| LinearEncoding.AsWrittenBatchStore | src/lamtram/linear-encoder.cc:47-59 | The batch store as written: a buffer with one entry per sentence, and a walk that writes its own length of slots. |
| LinearEncoding.AsWrittenBatchSlotsOutOfRange | src/lamtram/linear-encoder.cc:47-59 | In batch mode the buffer holds one entry per sentence and the slots run from the walk length down to 1. So some slot is out of range exactly when the walk is at least as long as the batch, and slot 0 is never written. |
| LinearEncoding.AsWrittenBatchExample | src/lamtram/linear-encoder.cc:44-59 | Two three-token sentences give a buffer of 2 and writes to slots 3, 2 and 1, two of them out of range, while the longest sentence has 3 positions. |
| LinearEncoding.EncoderRecordRoundTrip | src/lamtram/linear-encoder.cc:78-93 | Reading a written `linenc_001` record restores all five fields and consumes exactly its line. |
| LinearEncoding.EncoderRecordRejectsVersion | src/lamtram/linear-encoder.cc:85-86 | A first word other than `linenc_001` is rejected. |
| LinearEncoding.LinearEncoder.constructor | src/lamtram/linear-encoder.cc:14-22 | A new encoder keeps its fields, walks forward, and has no graph. |
| LinearEncoding.LinearEncoder.NewGraph | src/lamtram/linear-encoder.cc:65-68 | Records the graph. |
| LinearEncoding.LinearEncoder.BuildSentGraph | src/lamtram/linear-encoder.cc:24-38 | Fails unless the graph is the recorded one. Otherwise the states are the walk's states, each at its fed position, and the result is the last output. |
| LinearEncoding.LinearEncoder.BuildBatchGraph | src/lamtram/linear-encoder.cc:40-62 | The same for a batch. The walk is as long as the longest sentence, and each step feeds one id per sentence. The store is the corrected one, a buffer as long as the walk with each state at its padded position; the source's buffer is as long as the batch (see Findings). |
| LinearEncoding.LinearEncoder.BatchLength | src/lamtram/linear-encoder.cc:43-45 | The walk length is the longest sentence's length. |
| LinearEncoding.LinearEncoder.StepIds | src/lamtram/linear-encoder.cc:53-56 | The id of sentence `i` is its token at `pos` when `pos` is in range, else 0. |
| LinearEncoding.LinearEncoder.Write | src/lamtram/linear-encoder.cc:91-93 | Writes `linenc_001 V W spec U rev\|for`. |
| LinearEncoding.LinearEncoder.Read | src/lamtram/linear-encoder.cc:78-90 | Fails exactly where the record does not parse. Otherwise it gives a new forward-or-reverse encoder with the record's fields. |
| Attentional.Stoi | src/lamtram/encoder-attentional.cc:28 | `std::stoi`: an int-range result, or invalid-argument or out-of-range. |
| Attentional.StoiIntToString | src/lamtram/encoder-attentional.cc:28 | `stoi` reads back every printed int. |
| Attentional.StoiIgnoresTrailing | src/lamtram/encoder-attentional.cc:28 | Trailing text after the digits is ignored. |
| Attentional.ParseAttention | src/lamtram/encoder-attentional.cc:23-35 | `dot` has no parameters. `bilin` has a state-by-context matrix. `mlp:H` has hidden size `H` (checked non-zero) with `H`-by-context, `H`-by-state and 1-by-`H` matrices. Any other type is illegal. |
| Attentional.MlpTypeRoundTrip | src/lamtram/encoder-attentional.cc:27-32 | `mlp:` followed by a printed non-zero int gives that hidden size. |
| Attentional.ParseAttentionOkAnyContext | src/lamtram/encoder-attentional.cc:23-35 | Acceptance does not depend on the context size. |
| Attentional.Combine | src/lamtram/encoder-attentional.cc:85-95 | One combined state per position. |
| Attentional.CombinedWidth | src/lamtram/encoder-attentional.cc:20-21 | Every combined state is as wide as the context size, the encoders' total width. |
| Attentional.CombineTransposes | src/lamtram/encoder-attentional.cc:89-94 | Part `j` of combined position `i` is encoder `j`'s state at `i`. |
| Attentional.EncoderRecordsRoundTrip | src/lamtram/encoder-attentional.cc:63-69 | Written encoder records read back in order. |
| Attentional.ExternHeaderRoundTrip | src/lamtram/encoder-attentional.cc:58-68 | The `extatt_002 N type state` header reads back. |
| Attentional.ExternRecordRoundTrip | src/lamtram/encoder-attentional.cc:53-70 | A written extern record reads back whole and consumes exactly its lines. |
| Attentional.ExternAttentional.Init | src/lamtram/encoder-attentional.cc:15-36 | The constructed calculator is valid; fields as given, no graph. |
| Attentional.ExternAttentional.Create | src/lamtram/encoder-attentional.cc:15-36 | Sums the context size, then fails exactly when the attention type is rejected. |
| Attentional.ExternAttentional.NewGraph | src/lamtram/encoder-attentional.cc:40-51 | Points every encoder at the graph. Indexes the first matrix iff the type is not `dot`, and the other two iff the hidden size is non-zero. |
| Attentional.ExternAttentional.CombineStates | src/lamtram/encoder-attentional.cc:85-95 | The nested loop computes `Combine`. |
| Attentional.ExternAttentional.AttachStates | src/lamtram/encoder-attentional.cc:96-115 | Sets `sent_len`. Rejects 512 or more positions. Otherwise it attaches the states, the last state and the scorer's terms (`sent_values_` only for `mlp`). |
| Attentional.ExternAttentional.RunEncoders | src/lamtram/encoder-attentional.cc:78-82 | Each encoder encodes the sentence in order; a graph mismatch fails. |
| Attentional.ExternAttentional.RunEncodersBatch | src/lamtram/encoder-attentional.cc:123-127 | The same for a batch, over the corrected store: each encoder holds one state per position of the longest sentence. |
| Attentional.ExternAttentional.InitializeSentence | src/lamtram/encoder-attentional.cc:73-116 | Encodes, combines, and sets `sent_len` to the length. Fails at 512 or more positions, and otherwise attaches the combined states. |
| Attentional.ExternAttentional.EncodeSentence | src/lamtram/encoder-attentional.cc:76-95 | The sentence's encoder states, combined position by position; a graph mismatch fails. |
| Attentional.ExternAttentional.EncodeBatch | src/lamtram/encoder-attentional.cc:121-140 | The batch's encoder states, combined over the corrected positions of the longest sentence, or the graph mismatch. |
| Attentional.ExternAttentional.InitializeBatch | src/lamtram/encoder-attentional.cc:118-161 | The batch form. Its `sent_len` and its 512 ceiling use the corrected count, the longest sentence's length. As written, the count is the number of sentences; see `AsWrittenBatchPositions` and Findings. |
| Attentional.AsWrittenBatchPositions | src/lamtram/encoder-attentional.cc:128-141 | As written, the batch position count is the first encoder's buffer length, which is the number of sentences. |
| Attentional.AsWrittenBatchPositionsDiffer | src/lamtram/encoder-attentional.cc:128-141 | As written, 512 one-token sentences hit the ceiling, and two three-token sentences get 2 positions. The longest sentences have 1 and 3. |
| Attentional.ExternAttentional.CreateContext | src/lamtram/encoder-attentional.cc:168-203 | A graph mismatch fails. `dot` and `bilin` need a state. Only the last state is read, and exactly one alignment entry is appended. |
| Attentional.ExternAttentional.ContextUsesLastState | src/lamtram/encoder-attentional.cc:177-192 | State lists with the same last element give the same alignment. |
| Attentional.ExternAttentional.Write | src/lamtram/encoder-attentional.cc:67-70 | Writes the header and every encoder's record. |
| Attentional.ExternAttentional.ReadEncoders | src/lamtram/encoder-attentional.cc:63-64 | Reads as many encoder records as announced, or fails with the first record's error. |
| Attentional.ExternAttentional.Read | src/lamtram/encoder-attentional.cc:53-66 | Fails where the record does not parse or the type is rejected; otherwise it gives the record's calculator. |
| Attentional.SeedsLayout | src/lamtram/encoder-attentional.cc:231-237 | There are `2 * layers` seeds, and seed `i + layers` is the tanh of seed `i`. |
| Attentional.SeedPick | src/lamtram/encoder-attentional.cc:233-235 | With several layers, seed `i` selects rows `[i*nodes, (i+1)*nodes)`. |
| Attentional.SlicesCover | src/lamtram/encoder-attentional.cc:231-237 | The slices are `nodes` rows each, disjoint, and together cover the bridge output. |
| Attentional.EncAttRecordRoundTrip | src/lamtram/encoder-attentional.cc:284-300 | A written `encatt_001` record reads back whole, given a decoder record that does. |
| Attentional.EncAttRecordRejects | src/lamtram/encoder-attentional.cc:284-290 | A premature end or a wrong version is rejected. |
| Attentional.EncoderAttentional.constructor | src/lamtram/encoder-attentional.cc:205-215 | The bridge has a `(layers*nodes)`-by-context matrix and a `layers*nodes` bias. |
| Attentional.EncoderAttentional.NewGraph | src/lamtram/encoder-attentional.cc:218-224 | Points the calculator and the decoder at the graph, and indexes the bridge. |
| Attentional.EncoderAttentional.Seeds | src/lamtram/encoder-attentional.cc:231-237 | The index loop fills the decoder seeds. |
| Attentional.EncoderAttentional.GetEncodedState | src/lamtram/encoder-attentional.cc:227-239 | Encodes the sentence, maps the last state through the bridge, and returns the seeds. |
| Attentional.EncoderAttentional.GetEncodedStateBatch | src/lamtram/encoder-attentional.cc:227-239 | The batch form, built on `InitializeBatch`'s corrected positions. |
| Attentional.EncoderAttentional.Write | src/lamtram/encoder-attentional.cc:296-300 | Writes the version, the calculator and the decoder. |
| Attentional.EncoderAttentional.Read | src/lamtram/encoder-attentional.cc:284-295 | Rejects a premature end or a wrong version. Otherwise it gives a model whose configuration is the record's. |
| Attentional.WriteReadWrite | src/test/test-encoder-attentional.cc:39-56 | Writing the copy read back from a written model gives the same text, for attention types and hidden specs free of whitespace. |
| SoftmaxClass.NewClassSoftmax | src/lamtram/softmax-class.cc:11-15 | Keeps the signature and input size; a bad signature fails. |
| SoftmaxClass.SplitClassColon | src/lamtram/softmax-class.cc:12-13 | Splitting at `:` gives two pieces, the first `class`, exactly for `class:<file>` with no further colon. |
| SoftmaxClass.ClassSignatureIff | src/lamtram/softmax-class.cc:11-15 | Accepted iff the signature is `class:<file>` with no further colon; the class file is the text after the colon. |
| SoftmaxClass.ClassSignatureExamples | src/lamtram/softmax-class.cc:12-13 | `class:` is accepted with an empty file; `class` and `class:a:b` are rejected. |
| SoftmaxClass.CalcLoss | src/lamtram/softmax-class.cc:22-24 | The class-factored loss of the input for the n-gram's last word. |
| SoftmaxClass.CalcLossLastWord | src/lamtram/softmax-class.cc:22-24 | Two losses are equal exactly when the last words are. |
| SoftmaxClass.CalcLossBatch | src/lamtram/softmax-class.cc:26-28 | Always not implemented. |
| SoftmaxClass.CalcProbability | src/lamtram/softmax-class.cc:31-33 | Always not implemented. |
| SoftmaxClass.CalcProbabilityBatch | src/lamtram/softmax-class.cc:34-36 | Always not implemented. |
| SoftmaxClass.CalcLogProbability | src/lamtram/softmax-class.cc:37-39 | Always not implemented. |
| SoftmaxClass.CalcLogProbabilityBatch | src/lamtram/softmax-class.cc:40-42 | Always not implemented. |
| SoftmaxFactory.CreateSoftmax | src/lamtram/softmax-factory.cc:14-24 | A built softmax keeps the signature and input size. |
| SoftmaxFactory.CreateSoftmaxDispatch | src/lamtram/softmax-factory.cc:15-23 | In order: `full`; a valid class signature after a `class` prefix; a `mod` prefix without a `class` one. A `class` prefix fails the class check, and anything else is a bad signature. |
| SoftmaxFactory.CreateSoftmaxClassFile | src/lamtram/softmax-factory.cc:17-18 | A `class:<file>` signature builds a class softmax with that file. |
| SoftmaxFactory.ShortSignatureRejected | src/lamtram/softmax-factory.cc:15-23 | Signatures shorter than 3 characters are rejected. |
| SoftmaxFactory.CreateSoftmaxExamples | src/lamtram/softmax-factory.cc:15-23 | `classmod` fails the class check, `model` is a mod softmax, and `fullest` is rejected. |
| Text.ParseIntToString | src/lamtram/linear-encoder.cc:84-92 | Every printed int reads back by `>>`. |
| Text.WordsOfLine | src/lamtram/linear-encoder.cc:83-92 | The words of a line written with single spaces are the words written. |

## Left out

- **Tensor numerics.** Softmax, tanh, affine transforms, matrix products and
  lookups are symbolic terms. No floating-point value is computed.
- **Training mechanics.** The training loops (`TrainLM`, the bilingual
  trainers, evaluation) are not modelled, nor are learning-rate halving and
  shuffling.
- **Loading and writing the model.** `LoadFile`/`LoadLabels`, model-file
  writing and `ModelUtils` text I/O are not modelled.
- **Option parsing.** Boost `program_options` parsing and the defaults it
  supplies are not modelled. `CheckOptions` takes the option strings as
  input, and the `try`/`catch` around each option read is not modelled.
- **`GetTrainer` arguments.** The learning rate and the parameter model
  passed to the trainers are dropped.
- LamtramTrain.SortIds: `std::sort` is modelled by an insertion sort. Its
  contract fixes the comparator order and the permutation, and leaves the
  order of equal keys open. The sorted ids are returned as an extra output.
- **Size arithmetic.** `(count + 1) * max_len` is unbounded: size_t
  wrap-around of the product is not modelled. The `int` budget is a 32-bit
  value and is compared as the `size_t` it converts to.
- LinearEncoding.ParseEncoderRecord: the model accepts a numeric field only
  when it is exactly a decimal numeral, and rejects anything else with
  `Unparseable`. The source's `istringstream >>` behaves differently:
  - It reads the longest numeric prefix, so `12abc` gives 12 and `abc`
    becomes the next field.
  - A field with no numeral stores 0 and sets failbit. Every later `>>` on
    that line then does nothing, so the later fields are left unread.
  - A numeral outside the 32-bit `int` range also sets failbit and stores
    `INT_MAX` or `INT_MIN`.

  Only the version word is checked afterwards. The model's fields are
  unbounded `int`s, so it accepts out-of-range numerals unchanged. The same
  holds for the `extatt_002` header, and its encoder count.
- Attentional.WriteReadWrite: the round trip is proved only when the
  attention type and every hidden spec are free of whitespace. The
  constructor also accepts `mlp: 5`, because `stoi` skips the space, and a
  hidden spec may contain whitespace. Reading splits either into two words,
  so the source's write, read, write does not reproduce such a model.
- Attentional.ParseAttention: a zero `mlp:` hidden size is an error, where
  the source's `assert` aborts. `stoi` is modelled up to its two exceptions.
- **Recurrent builder.** The builder factory (`BuilderFactory`) is
  represented by the hidden width it yields, passed in as `nodesOf`.
  Word-representation lookups and parameter allocation are not modelled.
- **`GetState`.** `ExternAttentional::GetState` is taken to be the last
  combined state (`i_h_last_`). encoder-attentional.h is not part of this
  model.
- **The decoder language model.** Its record is a pair of functions
  passed in (`writeLM`/`readLM`), assumed to round-trip; neural-lm.cc is not
  part of this model. `EncoderAttentional::BuildSentGraph` and
  `SampleTrgSentences` only hand work to the decoder, so they are not
  modelled.
- **Class-factored softmax internals.** `SoftmaxClass::NewGraph` and the
  `cnn` class-factored builder behind it are external. So is the builder's
  reading of the class file.
- **Other softmax kinds.** The full and mod softmax constructors are not
  part of this model. The factory's result records only their signature and
  input size.
- **Diagnostics.** `GetEmptyContext`, the verbose alignment printing and the
  Graphviz dumps are not modelled.

## Findings

| source | as written | input that shows it | evidently intended | confidence | as-written member | corrected member |
|---|---|---|---|---|---|---|
| src/lamtram/linear-encoder.cc:44-45 | the batch walk length is overwritten by each sentence, ending as the last one's length | sentences of lengths 2 then 1: the walk has one step and the first sentence's first token is never fed | the longest sentence's length | not executed | LinearEncoding.AsWrittenBatchLengthDropsTokens | LinearEncoding.LinearEncoder.BatchLength |
| src/lamtram/linear-encoder.cc:27-35 | for one sentence, the state of step t is stored at `word_states_[t]`, t from n down to 1, in a buffer of n | any sentence of length n ≥ 1: the first store is at index n, one past the end, and index 0 is never written | the state stored at its position, in a buffer as long as the walk | not executed | LinearEncoding.AsWrittenSlotsOutOfRange | LinearEncoding.LinearEncoder.BuildSentGraph |
| src/lamtram/lamtram-train.cc:85-89 | `boost::split` of the empty default `train_trg` gives one empty name, so the missing-file check passes | `--model_type nlm --model_out m` with no `--train_trg` | a missing training file is rejected | not executed | LamtramTrain.EmptyTrainFileAccepted | LamtramTrain.EmptyTrainFileRejected |
| src/lamtram/linear-encoder.cc:47-59 | in batch mode the buffer is resized to the number of sentences (line 47), but step t stores at `word_states_[t]` for t from the walk length down to 1 (line 59) | two sentences of three tokens: a buffer of 2, stores at slots 3 and 2 (both out of range) and 1, and slot 0 never written | one state per step of the walk, stored at its padded position | not executed | LinearEncoding.AsWrittenBatchExample | LinearEncoding.LinearEncoder.BuildBatchGraph |
| src/lamtram/encoder-attentional.cc:128-141 | in batch mode `sent_len_` is the first encoder's buffer length, which is the number of sentences, and the 512 ceiling tests the combined states of that length | 512 one-token sentences are rejected as oversized; two three-token sentences give 2 positions | the number of positions of the walk, the longest sentence's length | not executed | Attentional.AsWrittenBatchPositionsDiffer | Attentional.ExternAttentional.InitializeBatch |
