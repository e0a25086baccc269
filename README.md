# UniFMU core, modelled in Dafny

UniFMU runs an FMI co-simulation unit (an FMU) as a separate backend
process. A Rust shared library, the API layer `fmiapi`, is loaded by the
importer. It turns every FMI C call into a protobuf command and sends it
over a request/reply socket. A backend written in C#, Java or Python
answers each command from a model object. Two older C libraries
(`wrapper` and `src`) do the same with their own encodings. A Python
authoring helper builds model descriptions.

This project models that core in Dafny and proves properties of it:

- **Example models and their registries** (C#, Java and Python, FMI 3.0 and
  FMI 2.0): classes holding the property values by value reference, the FMI
  mode machine, the typed setters and getters with each language's error
  behaviour, reset, output recomputation, the state image and the decimal
  to fraction reduction of clock intervals and shifts. The C# state image
  is byte-exact (`BinaryWriter`), and saving then restoring is proved to
  be a round trip.
- **Backend command loops** (all six backends, the FMI 2.0 tool
  templates and the older Python launcher): a routing of each command
  to a reply, a process exit or a dropped message, run over an abstract
  sequence of received commands. The log-callback sub-protocol is part of
  the run. Lemmas state that a session answers every awaited command with
  the reply family the API layer waits for, and exactly where a backend
  does not.
- **Rust API layer**: the slave `dispatch` loop that answers log replies with
  callback-continue, the category filter and logger, status and category
  conversions, C-string conversion, extraction of the expected reply
  variant, the handshake check, the choice of launch command, the
  FMU-state buffers, reply post-processing and integer narrowing, and the
  protobuf conversions of the older RPC crate.
- **Small utilities**: FMI major-version detection, the test-variant
  generator of the `for_each_fmu` macro, and the authoring registry.

Sockets, subprocesses and the C pointer plumbing are boundaries. A
socket is a sequence of messages sent and a script of messages received.
A C output pointer is a `Cells` object. A float is its IEEE 754 bit
pattern, and float arithmetic is a function parameter.

Where the code and its design notes disagree, the model follows the code:

- Where the code is evidently wrong (see Findings), the model keeps both
  behaviours: a member that does what the code does, and a member with the
  intended behaviour, named with `Corrected` or without `AsWritten`. The
  entry points of the Rust API layer, the authoring helper and the older
  library do what the code does. Each row below says which of the two its
  member describes.

- A batch set call whose reference and value counts differ is not
  rejected. Every backend writes the pairs up to the shorter list.
- An unknown reference is not refused as a batch by every backend. The
  Java model raises, and the Python models raise part-way through a
  batch.
- The C# FMI 3.0 model enters EventMode on
  `fmi3EnterInitializationMode` (see Findings).
- `fmiapi/src/fmi2.rs` forwards to `fmiapi/src/dispatcher.rs`. Its FMI
  2.0 methods build the same commands and map the replies the same way as
  `fmiapi/src/fmi2_dispatcher.rs`, which the model cites. The two differ
  only in protobuf message names (the state commands are `UnifmuSerialize`
  and `UnifmuDeserialize` in the former).

Every file is a flat module named after the component it models, and
the modules import one another.

## Model

| member | source | states |
|---|---|---|
| Authoring.RefusedAsWrittenExactly | tool/unifmu/authoring.py:299-302 | the start check as written refuses every variable that lacks a needed start value, and refuses more exactly the exact or approx variables that have one |
| Authoring.ParameterRefusedAsWritten | tool/unifmu/authoring.py:362-383 | an exact parameter with its start value, which `add_real_parameter` always registers, is refused by the check as written and accepted by the corrected one |
| Authoring.Scalars | tool/unifmu/authoring.py:540-568 | the model description writes one scalar variable per registered variable |
| Authoring.ScalarsInOrder | tool/unifmu/authoring.py:533-568 | the variable defined at position i gets value reference i, index i + 1, its own name and its type as the tag of its type element, and a start value is written exactly when one is needed and given |
| Authoring.ReferenceByName | tool/unifmu/authoring.py:536-547 | with unique names, a written variable carries a registered variable's name exactly when its value reference is that variable's position |
| Authoring.ReferencesStable | tool/unifmu/authoring.py:536-538 | registering a variable leaves the elements of the earlier ones unchanged and gives the new one the next value reference |
| Authoring.OutputIndices | tool/unifmu/authoring.py:573-586 | the listed indices are exactly the 1-based positions of the outputs, in increasing order |
| Authoring.CategoryNames | tool/unifmu/authoring.py:526-527 | one category element per declared category, in declaration order, with its name |
| Authoring.Fmi2Fmu.constructor | tool/unifmu/authoring.py:87-162 | a new FMU has the model name, nothing registered, and needs an execution tool exactly for python, java and csharp |
| Authoring.Fmi2Fmu.AddVariable | tool/unifmu/authoring.py:267-325 | corrected registration: a variable is appended exactly when its name is new and it has every needed start value; otherwise ValueError and nothing changes |
| Authoring.Fmi2Fmu.AddVariableAsWritten | tool/unifmu/authoring.py:267-325 | registration as written: a variable is appended exactly when its name is new and the check as written passes; otherwise ValueError and nothing changes |
| Authoring.Fmi2Fmu.AddRealInput | tool/unifmu/authoring.py:327-360 | as written: an input with its start value passes the start check as written, so it is appended exactly when its name is new, with the builtin `type` as its type (:348); otherwise ValueError |
| Authoring.Fmi2Fmu.AddRealInputCorrected | tool/unifmu/authoring.py:327-360 | corrected: the input is appended with the tag name "Real" as its type exactly when its name is new; otherwise ValueError |
| Authoring.Fmi2Fmu.AddRealParameter | tool/unifmu/authoring.py:362-383 | as written: every call raises ValueError and registers nothing, because the parameter is exact and the start check as written refuses every exact variable |
| Authoring.Fmi2Fmu.AddRealParameterCorrected | tool/unifmu/authoring.py:362-383 | corrected: an exact parameter with its start value and the tag name "Real" as type is appended exactly when its name is new; otherwise ValueError |
| Authoring.Fmi2Fmu.AddRealOutput | tool/unifmu/authoring.py:385-401 | as written: an output is appended, with the builtin `type` as its type (:395), exactly when its name is new and its initial is calculated; an exact or approx output raises ValueError although it has a start value |
| Authoring.Fmi2Fmu.AddRealOutputCorrected | tool/unifmu/authoring.py:385-401 | corrected: an output with its start value, initial and the tag name "Real" as type is appended exactly when its name is new; otherwise ValueError |
| Authoring.Fmi2Fmu.AddRealLocalVariable | tool/unifmu/authoring.py:403-418 | a local variable with the caller's type, which is given no start value, is appended exactly when its name is new and its initial is calculated (the check as written and the corrected one agree here); otherwise ValueError |
| Authoring.Fmi2Fmu.AddIndependentVariable | tool/unifmu/authoring.py:420-425 | always raises TypeError: `_add_variable` is called without its required arguments |
| Authoring.Fmi2Fmu.DeclareLogCategory | tool/unifmu/authoring.py:183-196 | a category is appended exactly when its name was not declared before; otherwise ValueError and nothing changes |
| Authoring.Fmi2Fmu.DeclareBaseUnit | tool/unifmu/authoring.py:198-221 | the unit is recorded with the given exponents, keeping a display unit declared for it before; nothing else changes |
| Authoring.Fmi2Fmu.DeclareDisplayUnit | tool/unifmu/authoring.py:223-246 | a display unit replaces the base unit's previous one exactly when the base unit is declared; otherwise ValueError and nothing changes |
| Authoring.Fmi2Fmu.DeclareDependency | tool/unifmu/authoring.py:435-453 | a dependency is appended to the dependent's list exactly when its kind is constant or dependent; otherwise ValueError and nothing changes |
| Authoring.Fmi2Fmu.ModelDescription | tool/unifmu/authoring.py:455-613 | a variable that needs a start value and has none raises ValueError while the tree is built (:561-565); otherwise a variable whose type is a type object rather than a tag name raises TypeError when the tree is serialised (:558, :613); otherwise the description has the category names, the scalar variables in order with their type tags, and the output indices under both outputs and initial unknowns. A valid registry whose types are all tag names is always described |
| Authoring.DescribeInputAsWritten | tool/unifmu/authoring.py:341-360 | an FMU with one input added by `add_real_input` as written has no description: TypeError |
| Authoring.DescribeInputCorrected | tool/unifmu/authoring.py:541-613 | with the tag name "Real", the same FMU is described with one real input, value reference 0 and its start value |
| Batches.StoreKeys | assets/csharp/model.cs:179-182 | after a zipped batch of writes the keys are the old keys plus the references paired with a value |
| Batches.StoreUntouched | assets/python/fmi2/model.py:147-148 | a reference outside the batch keeps its old entry, or its absence |
| Batches.StoreLast | assets/csharp/fmi3/model.cs:815-818 | the last pair for a reference decides its value |
| Batches.StoreSnoc | assets/python/fmi3/model.py:451-455 | one more pair after a batch is the batch followed by that write |
| Batches.StoreAll | assets/csharp/model.cs:179-182 | the zipped write loop computes `Store`, stopping at the shorter sequence |
| Cells.SlaveState.constructor | fmiapi/src/fmi3/fmi3_slave.rs:166-170 | the state holds a copy of the given bytes |
| Cells.CopyInto | fmiapi/src/fmi2.rs:440 | the values are copied to the front of the importer's array and the rest is left as it was |
| BinaryIo.LittleEndianRoundTrip | assets/csharp/fmi3/model.cs:680-683 | reading back the n little-endian bytes of a value below 256^n gives the value |
| BinaryIo.WriteInt32 | assets/csharp/fmi3/model.cs:680 | `BinaryWriter.Write(int)` writes four bytes |
| BinaryIo.ReadInt32 | assets/csharp/fmi3/model.cs:721 | `ReadInt32` succeeds exactly when four bytes are left, yields a 32-bit signed value and consumes four bytes |
| BinaryIo.ReadUInt32 | assets/csharp/fmi3/model.cs:722 | `ReadUInt32` succeeds exactly when four bytes are left, yields an unsigned 32-bit value and consumes four bytes |
| BinaryIo.ReadInt64 | assets/csharp/fmi3/model.cs:723 | `ReadInt64` succeeds exactly when eight bytes are left, yields a signed 64-bit value and consumes eight bytes |
| BinaryIo.ReadUInt64 | assets/csharp/fmi3/model.cs:724 | `ReadUInt64` succeeds exactly when eight bytes are left, yields an unsigned 64-bit value and consumes eight bytes |
| BinaryIo.ReadSingle | assets/csharp/fmi3/model.cs:715 | `ReadSingle` succeeds exactly when four bytes are left and consumes four |
| BinaryIo.ReadDouble | assets/csharp/fmi3/model.cs:716 | `ReadDouble` succeeds exactly when eight bytes are left and consumes eight |
| BinaryIo.ReadBoolean | assets/csharp/fmi3/model.cs:725 | `ReadBoolean` succeeds exactly when a byte is left; any non-zero byte reads as true |
| BinaryIo.Int32RoundTrip | assets/csharp/fmi3/model.cs:680 | a written 32-bit integer reads back, leaving the bytes after it |
| BinaryIo.UInt32RoundTrip | assets/csharp/fmi3/model.cs:681 | a written unsigned 32-bit integer reads back, leaving the bytes after it |
| BinaryIo.Int64RoundTrip | assets/csharp/fmi3/model.cs:682 | a written 64-bit integer reads back, leaving the bytes after it |
| BinaryIo.UInt64RoundTrip | assets/csharp/fmi3/model.cs:683 | a written unsigned 64-bit integer reads back, leaving the bytes after it |
| BinaryIo.SingleRoundTrip | assets/csharp/fmi3/model.cs:673 | a written `float` bit pattern reads back |
| BinaryIo.DoubleRoundTrip | assets/csharp/fmi3/model.cs:674 | a written `double` bit pattern reads back |
| BinaryIo.SevenBitRoundTrip | fmiapi/src/fmi3/fmi3_slave.rs:77-80 | a count written in base 128 reads back as a protobuf varint, leaving the bytes after it |
| BinaryIo.ReadCountFrom | assets/csharp/fmi3/model.cs:726 | after k bytes the count reader stops at a byte below 128 or at the fifth byte, refusing a fifth byte above 15 with FormatException and a short stream with EndOfStreamException; what it reads is below the bound for k |
| BinaryIo.Read7BitEncodedInt | assets/csharp/fmi3/model.cs:726 | `Read7BitEncodedInt` yields a 32-bit signed count and consumes at least one byte, or raises EndOfStreamException or FormatException |
| BinaryIo.CountBoundIsTwoTo32 | assets/csharp/fmi3/model.cs:726 | five bytes of the count carry exactly 32 bits |
| BinaryIo.CountRoundTrip | assets/csharp/fmi3/model.cs:685 | a non-negative `int` written with `Write7BitEncodedInt` reads back, leaving the bytes after it |
| BinaryIo.LongCountRefused | assets/csharp/fmi3/model.cs:726 | a count whose fifth byte exceeds 15 raises FormatException |
| BinaryIo.NegativeCount | assets/csharp/fmi3/model.cs:726 | a fifth byte that sets bit 31 gives a negative count |
| BinaryIo.SequenceLength | assets/csharp/fmi3/model.cs:726 | a lead byte starts a sequence of at most four bytes |
| BinaryIo.WellFormedPrefix | assets/csharp/fmi3/model.cs:726 | the well-formed beginning of a sequence is at least its lead byte and at most the whole sequence and the bytes left |
| BinaryIo.DecodeChar | assets/csharp/fmi3/model.cs:726 | each decoder step consumes at least one byte |
| BinaryIo.DecodeCharRoundTrip | assets/csharp/fmi3/model.cs:685 | the UTF-8 bytes of a character decode to that character |
| BinaryIo.DecodeUtf8 | assets/csharp/fmi3/model.cs:726 | UTF-8 decoding never fails and yields at most one character per byte |
| BinaryIo.StrayByteReplaced | assets/csharp/fmi3/model.cs:726 | a byte that cannot start a sequence becomes one U+FFFD and decoding goes on after it |
| BinaryIo.BrokenSequencesReplaced | assets/csharp/fmi3/model.cs:726 | a cut-off sequence becomes one U+FFFD, and an encoded surrogate becomes one U+FFFD per byte |
| BinaryIo.Utf8RoundTrip | assets/csharp/fmi3/model.cs:685 | the UTF-8 bytes of a string decode to that string |
| BinaryIo.ReadString | assets/csharp/fmi3/model.cs:726 | `ReadString` consumes at least one byte when it succeeds, and otherwise raises only EndOfStreamException, FormatException or IOException |
| BinaryIo.ReadStringDecodes | assets/csharp/fmi3/model.cs:726 | after a well-formed count the string read is the replacement decoding of that many bytes, whatever they are |
| BinaryIo.StringRoundTrip | assets/csharp/fmi3/model.cs:685 | a written string whose UTF-8 byte count is an `int` (length prefix and UTF-8 bytes) reads back with `ReadString`, leaving the bytes after it |
| BinaryIo.ReadBytes | assets/csharp/fmi3/model.cs:729-731 | `ReadBytes(count)` yields at most `count` bytes, fewer only when the stream ends, and the rest follows them |
| CategoryFilters.NewBlacklist | fmiapi/src/category_filter.rs:29-34 | a new blacklist enables every category |
| CategoryFilters.NewWhitelist | fmiapi/src/category_filter.rs:36-41 | a new whitelist enables no category |
| CategoryFilters.EnableCategory | fmiapi/src/category_filter.rs:43-62 | afterwards the category is enabled and no other changed; `Ok` exactly when it was disabled, otherwise `Err(category)` with the filter untouched; the list kind never changes |
| CategoryFilters.DisableCategory | fmiapi/src/category_filter.rs:64-83 | afterwards the category is disabled and no other changed; `Ok` exactly when it was enabled, otherwise `Err(category)` with the filter untouched |
| CategoryFilters.DisableUndoesEnable | fmiapi/src/category_filter.rs:43-83 | disabling a category just enabled restores the filter |
| CategoryFilters.EnableEachEnabled | fmiapi/src/category_filter.rs:43-62 | after enabling a list, a category is enabled iff it is listed or was enabled |
| CategoryFilters.DisableEachEnabled | fmiapi/src/category_filter.rs:64-83 | after disabling a list, a category is enabled iff it is not listed and was enabled |
| Fmi3Commands.GetVariant | fmiapi/src/fmi3/mod.rs:536-1656 | a typed getter is answered by a Get reply, never by a status or an empty reply |
| Fmi3Commands.GetVariantInjective | assets/csharp/fmi3/backend_body.cs:313-508 | two different value types are never answered by the same getter reply |
| Fmi3Commands.Awaited | fmiapi/src/fmi3/mod.rs:3400-3448 | the API layer waits for a reply after every command it sends except free-instance, which it only sends |
| Fmi3Commands.RoutedVariant | assets/csharp/fmi3/backend_body.cs:48-631 | a reply goes out exactly for commands that instantiate, are acknowledged or are answered by the model |
| Fmi3Commands.Handled | assets/csharp/fmi3/backend_body.cs:48-631 | a command is replied to exactly when its routing sends a reply and, for a model call, a model exists and the call returns; the reply has the routed variant; a call without a model raises; exits, drops and failures are exactly the routings that ask for them |
| Fmi3Commands.AnsweredStep | assets/csharp/fmi3/backend_body.cs:48-631 | with a model, a command routed to its awaited reply whose call returns is answered with exactly the awaited variant, without logs |
| Fmi3Commands.RepliesAwaited | fmiapi/src/fmi3/mod.rs:3436-3448 | once a model exists, a loop that routes every command to its awaited reply sends one reply per command, in order, each of the variant the API layer waits for, and keeps waiting |
| Fmi3Commands.SessionRepliesAwaited | assets/csharp/fmi3/backend_body.cs:48-631 | a session opened by a co-simulation instantiation sends the Ok handshake first, then one awaited reply per command |
| Fmi3Commands.LeaveEndsSession | assets/csharp/fmi3/backend_body.cs:611-616 | a command that ends the process sends nothing and nothing after it is read |
| Fmi3Commands.SkipIgnored | assets/java/src/fmi3/java/AbstractBackend.java:781-789 | a dropped command leaves the loop exactly as if it had never come |
| Fmi3Commands.ToByteStrings | assets/csharp/fmi3/backend_body.cs:644-652 | one byte string per array, in order, holding that array's bytes |
| Fmi3Commands.ToByteArrays | assets/csharp/fmi3/backend_body.cs:634-642 | one array per byte string, in order, holding that string's bytes |
| Fmi3Commands.ByteArraysRoundTrip | assets/java/src/fmi3/java/AbstractBackend.java:93-107 | converting arrays to byte strings and back gives the arrays again |
| Fmi3Commands.ByteStringsRoundTrip | assets/java/src/fmi3/java/AbstractBackend.java:93-107 | converting byte strings to arrays and back gives the byte strings again |
| Fmi3Commands.ConvertToByteStringList | assets/csharp/fmi3/backend_body.cs:644-652 | the loop builds exactly the list of byte strings of the arrays, in order |
| Fmi3Commands.ConvertToByteArrayList | assets/csharp/fmi3/backend_body.cs:634-642 | the loop builds exactly the list of arrays of the byte strings, in order |
| Fmi2Commands.Awaited | fmiapi/src/fmi2_dispatcher.rs:43-416 | the dispatcher decodes a reply after every command except free-instance, which it only sends |
| Fmi2Commands.RoutedVariant | assets/csharp/backend_body.cs:67-213 | a reply goes out exactly for commands that build the model, are answered by it, or are answered before the process ends |
| Fmi2Commands.Handled | assets/csharp/backend_body.cs:67-213 | a command is replied to exactly when its routing sends a reply and, for a model call, a model exists and the call returns; only a model call logs, and then exactly the events the model logs; a reply-then-exit goes out exactly for farewell routings with their exit code; a call without a model raises |
| Fmi2Commands.AnsweredStep | assets/csharp/backend_body.cs:67-213 | with a model, a command routed to its awaited reply whose call returns and logs nothing is answered with exactly the reply the dispatcher decodes |
| Fmi2Commands.RepliesAwaited | fmiapi/src/fmi2_dispatcher.rs:445-457 | once a model exists, a loop that routes every command to its awaited reply and whose calls log nothing sends one reply per command, in order, each decoded as the dispatcher expects |
| Fmi2Commands.SessionRepliesAwaited | assets/csharp/backend_body.cs:40-213 | a session opened by an instantiation sends the Ok handshake first, then one awaited reply per command |
| Fmi2Commands.LoggedAnswer | assets/csharp/backend_body.cs:48-64 | each event a model call logs goes out as a log reply acknowledged by one continue command, and the command's reply comes after all of them |
| Fmi2Commands.LogRefused | assets/csharp/backend_body.cs:57-63 | a command other than continue after a log reply ends the process with the backend's refusal code, after that one log reply and with no command reply |
| Fmi2Commands.LeaveEndsSession | assets/csharp/backend_body.cs:197-213 | a command that ends the process sends nothing and nothing after it is read |
| Fmi2Commands.SkipIgnored | assets/java/src/fmi2/java/AbstractBackend.java:331-335 | a dropped command leaves the loop exactly as if it had never come |
| Fmi2Commands.SetupReceived | fmiapi/src/fmi2_dispatcher.rs:127-142 | the stop time and the tolerance are marked present exactly when the C function was given them |
| Fmi2Commands.SetupArguments | assets/csharp/backend_body.cs:78-83 | the model receives the start time, and a stop time or tolerance exactly where the field is present |
| Fmi2Commands.SetupArgumentsRoundTrip | assets/java/src/fmi2/java/AbstractBackend.java:256-262 | the model's setup-experiment arguments are exactly the ones the C function was given |
| CsharpFmi2Backend.RouteAnswersAwaited | assets/csharp/backend_body.cs:70-201 | every command the dispatcher sends, except the debug-logging switch and the three derivative commands, gets the message the dispatcher decodes; free-instance is answered and ends the process with 0 |
| CsharpFmi2Backend.RouteExits | assets/csharp/backend_body.cs:203-213 | the process ends with -1 exactly for the debug-logging switch, the derivative commands and the commands the dispatcher never sends; free-instance alone replies and then exits |
| CsharpFmi2Backend.Handle | assets/csharp/backend_body.cs:66-75 | the instantiation builds the model and replies Empty; free-instance replies FreeInstance and exits with 0; a model call before any instantiation raises NullReferenceException |
| CsharpFmi2Backend.SessionAnswered | assets/csharp/backend_body.cs:38-201 | a session that instantiates and then sends answered commands whose model calls return without logging gets the Ok handshake and one decodable reply per command, in order |
| CsharpFmi2Backend.FreeInstanceRepliesThenExits | assets/csharp/backend_body.cs:196-200 | free-instance sends exactly the FreeInstance reply and ends the process with 0; nothing after it is read |
| CsharpFmi2Backend.DebugLoggingEndsProcess | assets/csharp/backend_body.cs:203-213 | the debug-logging switch, for which the dispatcher awaits a status, ends the process with -1 and no reply |
| CsharpFmi2Backend.LogRefusedEndsProcess | assets/csharp/backend_body.cs:48-64 | a command other than continue after a log reply ends the process with -1 after that one log reply |
| CsharpFmi3Backend.RouteAnswersAwaited | assets/csharp/fmi3/backend_body.cs:52-616 | every command the API layer sends and waits on, the debug-logging switch excepted, gets the reply it waits for, and free-instance ends the process with 0 |
| CsharpFmi3Backend.RouteExits | assets/csharp/fmi3/backend_body.cs:618-631 | the process ends with -1 exactly for the debug-logging switch and the commands the API layer never sends; the only other exit is free-instance |
| CsharpFmi3Backend.Handle | assets/csharp/fmi3/backend_body.cs:46-72 | the co-simulation instantiation builds the model and replies Empty; a model call before any instantiation raises NullReferenceException |
| CsharpFmi3Backend.SessionAnswered | assets/csharp/fmi3/backend_body.cs:40-616 | a session that instantiates and then sends awaited commands whose model calls return is answered with the Ok handshake and one awaited reply per command, in order |
| CsharpFmi3Backend.DebugLoggingEndsProcess | assets/csharp/fmi3/backend_body.cs:618-631 | the debug-logging switch, for which the API layer awaits a status, ends the process with -1: nothing is sent and nothing after it is read |
| CsharpFmi3Backend.GetterReplyAsWritten | assets/csharp/fmi3/backend_body.cs:313-508 | a getter replies exactly when the model gives values, with the model's status and values; a null value list raises (ArgumentNullException, or NullReferenceException for binary) |
| CsharpFmi3Backend.GetterReply | assets/csharp/fmi3/backend_body.cs:313-508 | corrected getter branch: always replies, with the model's status and its values, or no values when it gives none |
| CsharpFmi3Backend.GetterRepliesAgree | assets/csharp/fmi3/backend_body.cs:313-326 | the as-written and corrected getter branches agree whenever the model gives values |
| CsharpFmi3Backend.ClockReadCrashes | assets/csharp/fmi3/model.cs:823-832 | reading a clocked variable outside event and initialization mode gives (Error, null), which crashes the backend as written and is replied as an error status with no values as intended |
| CsharpFmi3Backend.ClockReadInStepMode | assets/csharp/fmi3/backend_body.cs:313-326 | concretely, a Float64 read of reference 1001 in step mode raises ArgumentNullException |
| CsharpFmi3Model.RegistryGroups | assets/csharp/fmi3/model.cs:127-213 | the value references are exactly those of the regular, clocked, tunable and structural groups, and no reference is in two groups |
| CsharpFmi3Model.Range | assets/csharp/fmi3/model.cs:127-168 | the consecutive references of a group, in order |
| CsharpFmi3Model.LayoutOrdered | assets/csharp/fmi3/model.cs:708 | the state image lists every reference exactly once, in increasing order, as `OrderBy(e => e.Key)` does |
| CsharpFmi3Model.Default | assets/csharp/fmi3/model.cs:22-98 | each property's initial value has the property's type |
| CsharpFmi3Model.Defaults | assets/csharp/fmi3/model.cs:22-98 | the initial properties are well typed |
| CsharpFmi3Model.TripleKinds | assets/csharp/fmi3/model.cs:751-773 | an output and its two inputs have the same type |
| CsharpFmi3Model.CombineTriple | assets/csharp/fmi3/model.cs:751-773 | each output is computed as a value of its own type |
| CsharpFmi3Model.UpdateOutputs | assets/csharp/fmi3/model.cs:751-773 | `UpdateOutputs` keeps the properties well typed and changes only the outputs |
| CsharpFmi3Model.UpdateOutputsValues | assets/csharp/fmi3/model.cs:751-773 | each output becomes the combination of its two inputs: wrapped sum, concatenation, or, or byte-wise xor |
| CsharpFmi3Model.UpdateOutputsKeepsInputs | assets/csharp/fmi3/model.cs:751-773 | the two inputs of every output are left unchanged |
| CsharpFmi3Model.UpdateOutputsStable | assets/csharp/fmi3/model.cs:751-773 | updating the outputs twice gives each property the value one update gives it |
| CsharpFmi3Model.UpdateOutputsIdempotent | assets/csharp/fmi3/model.cs:751-773 | `UpdateOutputs` is idempotent |
| CsharpFmi3Model.UpdateClocks | assets/csharp/fmi3/model.cs:775-778 | clock c becomes clock a and clock b, and nothing else changes |
| CsharpFmi3Model.UpdateClockedOutputs | assets/csharp/fmi3/model.cs:780-783 | only clocked variable c changes, by adding a and b with 32-bit wrap-around |
| CsharpFmi3Model.Initial | assets/csharp/fmi3/model.cs:115-221 | the constructed properties are the defaults after the three updates, and are well typed |
| CsharpFmi3Model.InitializationUnreachable | assets/csharp/fmi3/model.cs:250-254 | as written, no sequence of mode operations reaches InitializationMode from any other mode |
| CsharpFmi3Model.Stored | assets/csharp/fmi3/model.cs:817 | an accepted value is stored with its property's type, and a representable one fits the property |
| CsharpFmi3Model.Converted | assets/csharp/fmi3/model.cs:815-818 | a writable batch stores one converted value per zipped pair |
| CsharpFmi3Model.WriteAllSucceeds | assets/csharp/fmi3/model.cs:815-818 | the zipped writes succeed exactly when every pair names a property whose type the value has or widens to, and then store exactly those pairs, each value converted to its property's type |
| CsharpFmi3Model.WriteAllWellTyped | assets/csharp/fmi3/model.cs:815-818 | the writes, widening included, keep the properties well typed, also when one of them raises part-way |
| CsharpFmi3Model.SetValueOutcome | assets/csharp/fmi3/model.cs:785-821 | a batch with a reference the mode forbids returns Error and writes nothing; otherwise it returns OK exactly when every value has or widens to its property's type, and then stores the converted batch |
| CsharpFmi3Model.ReadAll | assets/csharp/fmi3/model.cs:834-839 | a successful read returns one value per reference |
| CsharpFmi3Model.ReadAllValues | assets/csharp/fmi3/model.cs:834-839 | reading references that hold values of the right type returns those values, in order |
| CsharpFmi3Model.GetAfterSet | assets/csharp/fmi3/model.cs:785-842 | values set under distinct references of one type are read back converted to that type, and unchanged when they already have it |
| CsharpFmi3Model.Int32WidensToInt64 | assets/csharp/fmi3/model.cs:423-426 | `Fmi3SetInt32` on the `long` property `int64_a` (reference 24, declared at line 46) stores the value as a `long` and returns OK |
| CsharpFmi3Model.OverwriteValues | assets/csharp/fmi3/model.cs:704-738 | the properties in the layout take their decoded values and the others keep theirs |
| CsharpFmi3Model.DecodeEncoded | assets/csharp/fmi3/model.cs:661-738 | decoding what was encoded for a layout restores those properties, whatever bytes follow, when every string's UTF-8 byte count is an `int` |
| CsharpFmi3Model.ImageRoundTrip | assets/csharp/fmi3/model.cs:661-738 | for a layout that covers every reference, deserializing a serialized image restores every property, when every string's UTF-8 byte count is an `int` |
| CsharpFmi3Model.StateImageRoundTrip | assets/csharp/fmi3/model.cs:661-738 | `Fmi3DeserializeFmuState` of what `Fmi3SerializeFmuState` returned restores the model's properties, when every string's UTF-8 byte count is an `int` |
| CsharpFmi3Model.DecodeAllWellTyped | assets/csharp/fmi3/model.cs:704-738 | decoding any bytes keeps the properties well typed |
| CsharpFmi3Model.FractionOf | assets/csharp/fmi3/model.cs:864-875 | a decimal text that converts gives a fraction with a positive denominator; a parse failure is a `FormatException` and a cast failure an `OverflowException` |
| CsharpFmi3Model.EncodeProperties | assets/csharp/fmi3/model.cs:661-702 | the write loop produces exactly the encoding of the layout's properties |
| CsharpFmi3Model.Model.constructor | assets/csharp/fmi3/model.cs:115-221 | a new model is Instantiated with event mode unused, the initial properties, and a clock interval and shift of 1.0 for reference 1001 |
| CsharpFmi3Model.Model.DoStep | assets/csharp/fmi3/model.cs:225-233 | a step updates the outputs, raises no flag, and reports current time plus step size as the last successful time |
| CsharpFmi3Model.Model.UpdateDiscreteStates | assets/csharp/fmi3/model.cs:235-246 | only the clocked outputs change, and the next event time is defined as 1.0 |
| CsharpFmi3Model.Model.EnterInitializationMode | assets/csharp/fmi3/model.cs:250-254 | the corrected operation enters InitializationMode and changes no property |
| CsharpFmi3Model.Model.EnterInitializationModeAsWritten | assets/csharp/fmi3/model.cs:250-254 | as written, the operation enters EventMode |
| CsharpFmi3Model.Model.ExitInitializationMode | assets/csharp/fmi3/model.cs:256-265 | leaving initialization enters EventMode or StepMode as event mode is used or not, and updates the outputs |
| CsharpFmi3Model.Model.EnterEventMode | assets/csharp/fmi3/model.cs:267-270 | enters EventMode and changes no property |
| CsharpFmi3Model.Model.EnterStepMode | assets/csharp/fmi3/model.cs:272-275 | enters StepMode and changes no property |
| CsharpFmi3Model.Model.EnterConfigurationMode | assets/csharp/fmi3/model.cs:277-284 | enters ConfigurationMode from Instantiated and ReconfigurationMode from anywhere else |
| CsharpFmi3Model.Model.ExitConfigurationMode | assets/csharp/fmi3/model.cs:286-297 | leaves ConfigurationMode for Instantiated and ReconfigurationMode for StepMode; from any other mode it returns Error and stays |
| CsharpFmi3Model.Model.Reset | assets/csharp/fmi3/model.cs:299-383 | reset returns to Instantiated with the initial properties and clock maps |
| CsharpFmi3Model.Model.Terminate | assets/csharp/fmi3/model.cs:385-389 | enters Terminated and changes no property |
| CsharpFmi3Model.Model.CheckReferences | assets/csharp/fmi3/model.cs:787-812 | the mode check refuses a batch exactly when one of its references is forbidden in the current mode |
| CsharpFmi3Model.Model.SetValueReflection | assets/csharp/fmi3/model.cs:785-821 | the setters change the properties and outcome exactly as `SetResult` says (widening included), keeping them well typed |
| CsharpFmi3Model.Model.SetClock | assets/csharp/fmi3/model.cs:449-454 | the clocks are set as `SetResult` says, and clock c is then recomputed unless the write raised |
| CsharpFmi3Model.Model.ReadValues | assets/csharp/fmi3/model.cs:834-839 | the read loop returns what `ReadAll` says |
| CsharpFmi3Model.Model.GetValueReflection | assets/csharp/fmi3/model.cs:823-842 | a clocked reference outside event and initialization mode returns Error; otherwise the values are read |
| CsharpFmi3Model.Model.SetIntervalDecimal | assets/csharp/fmi3/model.cs:467-479 | the zipped intervals are stored and nothing else changes |
| CsharpFmi3Model.Model.SetIntervalFraction | assets/csharp/fmi3/model.cs:481-495 | each counter divided by its resolution is stored as an interval |
| CsharpFmi3Model.Model.SetShiftDecimal | assets/csharp/fmi3/model.cs:497-509 | the zipped shifts are stored and nothing else changes |
| CsharpFmi3Model.Model.SetShiftFraction | assets/csharp/fmi3/model.cs:511-525 | each counter divided by its resolution is stored as a shift |
| CsharpFmi3Model.Model.GetIntervalDecimal | assets/csharp/fmi3/model.cs:599-611 | every requested interval is returned with qualifier 2 (changed), and a reference without one raises `KeyNotFoundException` |
| CsharpFmi3Model.Model.GetShiftDecimal | assets/csharp/fmi3/model.cs:631-641 | every requested shift is returned, and a reference without one raises `KeyNotFoundException` |
| CsharpFmi3Model.Model.GetIntervalFraction | assets/csharp/fmi3/model.cs:613-629 | every requested interval is returned as the fraction of its decimal text with qualifier 2, and succeeds exactly when each is present and converts |
| CsharpFmi3Model.Model.GetShiftFraction | assets/csharp/fmi3/model.cs:643-657 | every requested shift is returned as the fraction of its decimal text, and succeeds exactly when each is present and converts |
| CsharpFmi3Model.Model.Serialize | assets/csharp/fmi3/model.cs:661-702 | serializing returns OK and the encoding of every property in reference order |
| CsharpFmi3Model.Model.Deserialize | assets/csharp/fmi3/model.cs:704-749 | deserializing reads the properties back in the same order, keeping what was read before a failure |
| CsharpFmi3Model.StartValueRefusedAsWritten | assets/csharp/fmi3/model.cs:250-254 | as written, a start value set right after entering initialization mode is refused with Error |
| CsharpFmi3Model.StartValueAccepted | assets/csharp/fmi3/model.cs:785-821 | in InitializationMode, as the corrected operation sets it, a start value its property accepts is written, converted to the property's type |
| CsharpFmi3Model.DecodeProperties | assets/csharp/fmi3/model.cs:704-738 | the read loop of `Fmi3DeserializeFmuState` reads the properties in layout order and stops at the first that raises, with exactly the outcome and properties `DecodeAll` gives |
| CommandDispatching.Received | fmiapi/src/fmi2_dispatcher.rs:467-476 | a receive panics when nothing comes (the `unwrap`), fails as `DecodeError` on undecodable bytes, and otherwise yields the decoded message |
| CommandDispatching.Exchanged | fmiapi/src/fmi2_dispatcher.rs:444-456 | a failed send is a `SocketError` without a receive; otherwise the exchange yields what the receive yields |
| CommandDispatching.CommandDispatcher.Send | fmiapi/src/fmi2_dispatcher.rs:458-465 | a failed socket send is `SocketError` and sends nothing; otherwise the command is appended to what was sent |
| CommandDispatching.CommandDispatcher.Recv | fmiapi/src/fmi2_dispatcher.rs:467-476 | the reply is `Received` of the script, which loses its head |
| CommandDispatching.CommandDispatcher.SendAndRecv | fmiapi/src/fmi2_dispatcher.rs:444-456 | the result is `Exchanged`; a failed send leaves socket and script untouched, otherwise one command is sent and one reply consumed |
| CommandDispatching.SentWith | fmiapi/src/fmi2_dispatcher.rs:444-456 | one exchange sends the command, or nothing when sending fails |
| CommandDispatching.NonEmpty | fmiapi/src/fmi2_dispatcher.rs:274-277 | an empty value list becomes `None`, any other is kept |
| Dispatching.Dispatcher.constructor | fmiapi/src/common/dispatcher/mod.rs:97-124 | a new dispatcher has sent nothing and keeps its location, socket script and send fault |
| Dispatching.Dispatcher.Send | fmiapi/src/common/dispatcher/mod.rs:126-133 | a socket fault fails the send and sends nothing; otherwise the message is appended |
| Dispatching.Dispatcher.Recv | fmiapi/src/common/dispatcher/mod.rs:135-142 | a receive yields the next scripted reply, or a socket error when none is left |
| Dispatching.Dispatcher.SendAndRecv | fmiapi/src/common/dispatcher/mod.rs:144-156 | a failed send returns its error without receiving; otherwise the message is sent and the next reply consumed |
| Dispatching.HandshakeFromValue | fmiapi/src/common/dispatcher/mod.rs:217 | a handshake status value decodes exactly when it is 0 or 1 |
| Dispatching.AwaitHandshake | fmiapi/src/common/dispatcher/mod.rs:215-228 | a receive error propagates; status Ok succeeds, and only it; Error is a denial; an unknown value is malformed |
| Fmi2Api.OrError | fmiapi/src/fmi2.rs:365-367 | `unwrap_or(Fmi2Error)` turns a dispatch error into Error and passes a status through |
| Fmi2Api.Slave.constructor | fmiapi/src/fmi2.rs:131-141 | a new slave has an empty string buffer and no last successful time, pending message or step status |
| Fmi2Api.FreeInstance | fmiapi/src/fmi2.rs:294-308 | freeing sends free-instance without awaiting a reply, and a null instance sends nothing |
| Fmi2Api.Forward | fmiapi/src/fmi2.rs:362-392 | the status functions send their command once and return its status, Error when the exchange fails |
| Fmi2Api.ForwardChecked | fmiapi/src/fmi2.rs:542-618 | the setters send their command once and return its status, Error when the exchange fails and a panic for an unknown status |
| Fmi2Api.ForwardingStatus | fmiapi/src/fmi2.rs:362-392 | both conversions agree on the six known statuses and on failures, and differ only on unknown numbers |
| Fmi2Api.DefinedIf | fmiapi/src/fmi2.rs:339-353 | an optional argument is present exactly when its `defined` flag is not zero |
| Fmi2Api.SetupExperiment | fmiapi/src/fmi2.rs:331-359 | setup sends the start time, and the stop time and tolerance only when their flags are set |
| Fmi2Api.ReadCategories | fmiapi/src/fmi2.rs:317-321 | the category pointers read as texts exactly when every one is UTF-8, each text the conversion of its pointer |
| Fmi2Api.SetDebugLogging | fmiapi/src/fmi2.rs:311-328 | a category that is not UTF-8 panics with nothing sent; otherwise the categories and the flag `logging_on != 0` are sent and the status reply is returned |
| Fmi2Api.DoStep | fmiapi/src/fmi2.rs:396-415 | a step that returns OK or Warning records current time plus step size as the last successful time; any other answer leaves it, and nothing else changes |
| Fmi2Api.CopyOutcome | fmiapi/src/fmi2.rs:436-447 | values are copied exactly when the reply has them in the buffer's number; a reply with a different count panics in `copy_from_slice`, and a failure returns Error |
| Fmi2Api.CopyReply | fmiapi/src/fmi2.rs:436-447 | the buffer receives exactly what `CopyOutcome` says and is otherwise untouched |
| Fmi2Api.GetReal | fmiapi/src/fmi2.rs:428-447 | `fmi2GetReal` sends the references and copies the reply as `CopyOutcome` says |
| Fmi2Api.GetInteger | fmiapi/src/fmi2.rs:450-469 | `fmi2GetInteger` sends the references and copies the reply as `CopyOutcome` says |
| Fmi2Api.BoolsToInts | fmiapi/src/fmi2.rs:484-491 | each boolean becomes 1 or 0 |
| Fmi2Api.IntsToBools | fmiapi/src/fmi2.rs:585-588 | each integer is true exactly when it is not zero |
| Fmi2Api.BoolsRoundTrip | fmiapi/src/fmi2.rs:484-588 | booleans written as C integers read back as the same booleans |
| Fmi2Api.BooleanReply | fmiapi/src/fmi2.rs:480-497 | the boolean reply keeps its status and presence and becomes C integers |
| Fmi2Api.GetBoolean | fmiapi/src/fmi2.rs:472-500 | `fmi2GetBoolean` copies the reply as C integers as `CopyOutcome` says |
| Fmi2Api.StringOutcome | fmiapi/src/fmi2.rs:516-538 | returned strings are kept only when none contains a NUL, and a failure returns Error |
| Fmi2Api.GetString | fmiapi/src/fmi2.rs:510-538 | returned strings are stored in the slave's buffer and written to the front of the importer's array; otherwise buffer and array are untouched |
| Fmi2Api.SetBoolean | fmiapi/src/fmi2.rs:579-595 | each C integer is sent as the boolean "not zero" |
| Fmi2Api.GetRealOutputDerivatives | fmiapi/src/fmi2.rs:670-695 | as written: the importer's array is never written; a reply holding derivatives returns its status with the values dropped, and an empty reply panics unless `nvr` is 0 |
| Fmi2Api.GetRealOutputDerivativesCorrected | fmiapi/src/fmi2.rs:670-695 | corrected: with the getters' reply mapping, the derivatives are copied into the importer's array as `CopyOutcome` says |
| Fmi2Api.DirectionalCommandAsWritten | fmiapi/src/fmi2.rs:630-639 | as written, the unknown references are cut to the known count and the two lists are passed in swapped order |
| Fmi2Api.DirectionalCommandSwapped | fmiapi/src/fmi2.rs:630-639 | with one unknown and one different known reference, the command asks for the wrong unknown |
| Fmi2Api.DirectionalCommand | fmiapi/src/fmi2.rs:621-649 | the corrected command carries the unknown references, known references and seed as given |
| Fmi2Api.DirectionalCommandFaithful | fmiapi/src/fmi2.rs:630-639 | the written command equals the corrected one only when the two reference lists are equal |
| Fmi2Api.GetDirectionalDerivative | fmiapi/src/fmi2.rs:621-649 | as written: the swapped command is sent, and no derivative is ever returned; the call answers Error when the exchange fails, the reply's status only when it is empty and there are no known references, and panics otherwise |
| Fmi2Api.GetDirectionalDerivativeCorrected | fmiapi/src/fmi2.rs:621-649 | corrected: the intended command is sent, the derivative is copied as `CopyOutcome` says, and a reply without values reaches `todo!()` and panics |
| Fmi2Api.GetFmuState | fmiapi/src/fmi2.rs:709-724 | a serialized reply overwrites the existing state in place or stores a new one; a failure returns Error and leaves the state |
| Fmi2Api.FreeFmuState | fmiapi/src/fmi2.rs:728-737 | freeing a state always returns OK |
| Fmi2Api.SerializeFmuState | fmiapi/src/fmi2.rs:746-762 | a state larger than the buffer returns Error and leaves it; otherwise its bytes are copied to the front and the rest is untouched |
| Fmi2Api.DeserializeFmuState | fmiapi/src/fmi2.rs:767-777 | deserializing always returns OK with a new state holding exactly the bytes given |
| Fmi2Api.SerializedFmuStateSize | fmiapi/src/fmi2.rs:780-787 | the size is the state's byte count |
| Fmi2Api.SerializeRoundTrip | fmiapi/src/fmi2.rs:746-787 | serializing into a buffer of the reported size and deserializing it restores the same bytes |
| Fmi2Api.GetStatus | fmiapi/src/fmi2.rs:792-813 | only the do-step status kind answers, with the stored step status; anything else is Error |
| Fmi2Api.GetRealStatus | fmiapi/src/fmi2.rs:816-842 | only the last-successful-time kind answers, writing the recorded time with OK; otherwise Error and nothing is written |
| Fmi2Api.StepThenAskTime | fmiapi/src/fmi2.rs:396-842 | after a step that returned OK, asking for the last successful time gives current time plus step size |
| Fmi2Api.GetIntegerStatus | fmiapi/src/fmi2.rs:845-852 | always Error |
| Fmi2Api.GetBooleanStatus | fmiapi/src/fmi2.rs:855-862 | always Discard |
| Fmi2Api.GetStringStatus | fmiapi/src/fmi2.rs:865-874 | always panics in `todo!()` |
| Fmi2Dispatching.StatusOfReturn | fmiapi/src/fmi2_dispatcher.rs:480-491 | `into()` maps status numbers 0 to 5 to the status with that number, and any other number to OK, as the protobuf getter falls back to its default |
| Fmi2Dispatching.StatusOfReturnRoundTrip | fmiapi/src/fmi2_dispatcher.rs:480-491 | converting the number of a status gives that status back |
| Fmi2Dispatching.CheckedStatus | fmiapi/src/fmi2_dispatcher.rs:212 | `try_from(..).unwrap()` succeeds exactly on the numbers 0 to 5, with that status, and panics otherwise |
| Fmi2Dispatching.CheckedStatusAgrees | fmiapi/src/fmi2_dispatcher.rs:212-491 | the two conversions agree wherever `try_from` succeeds, and it panics exactly where `into()` falls back to OK for a number other than 0 |
| Fmi2Dispatching.IntoStatus | fmiapi/src/fmi2_dispatcher.rs:87-189 | the mode and lifecycle calls pass a failure through and convert the reply's status with `into()` |
| Fmi2Dispatching.UnwrapStatus | fmiapi/src/fmi2_dispatcher.rs:199-261 | the setters pass a failure through and convert the reply's status with `try_from(..).unwrap()` |
| Fmi2Dispatching.GetterReply | fmiapi/src/fmi2_dispatcher.rs:263-337 | a getter reply with a known status keeps it and has values exactly when the reply's list is not empty |
| Fmi2Dispatching.DerivativeReplyAsWritten | fmiapi/src/fmi2_dispatcher.rs:370-377 | as written, the derivative getters report values only when the list is empty, and then report the empty list |
| Fmi2Dispatching.DerivativeValuesLost | fmiapi/src/fmi2_dispatcher.rs:370-377 | a derivative reply holding one value reaches the caller as OK with no values |
| Fmi2Dispatching.DerivativeValuesKept | fmiapi/src/fmi2_dispatcher.rs:274-277 | with the getters' test the same reply keeps its values |
| Fmi2Dispatching.SerializeReply | fmiapi/src/fmi2_dispatcher.rs:145-151 | a serialize reply with a known status carries its state bytes, and an unknown status panics |
| Fmi2Dispatching.InstantiateCommand | fmiapi/src/fmi2_dispatcher.rs:63-85 | the instantiate command carries the name, GUID, resource location and flags as given, and fmu type 0 |
| Fmi2Dispatching.InstantiateIgnoresType | fmiapi/src/fmi2_dispatcher.rs:75 | model exchange and co-simulation instantiate with the same command |
| Fmi2Dispatching.EmptyReply | fmiapi/src/fmi2_dispatcher.rs:83-84 | an instantiate reply succeeds exactly when the exchange does |
| Fmi2Example.DeclaredOnce | assets/csharp/model.cs:13-24 | each of the twelve properties is declared once |
| Fmi2Example.Find | assets/csharp/model.cs:41 | a property found by name is one of the candidates and has that name, and none is found only when no candidate has it |
| Fmi2Example.NameInjective | assets/csharp/model.cs:13-24 | no two properties share a name |
| Fmi2Example.NamedName | assets/csharp/model.cs:41 | looking a property up by its own name finds it, and only its name finds it |
| Fmi2Example.Get | assets/csharp/model.cs:13-24 | reading a property gives a value of the property's type |
| Fmi2Example.PutGet | assets/csharp/model.cs:13-24 | writing a property changes that property alone and keeps the fields well formed |
| Fmi2Example.SameFields | assets/csharp/model.cs:13-24 | fields that agree on every property are equal |
| Fmi2Example.Defaults | assets/csharp/model.cs:13-24 | the initial fields, all zero, false or empty, are well formed |
| Fmi2Example.UpdateOutputs | assets/csharp/model.cs:169-175 | recomputing the outputs keeps the fields well formed |
| Fmi2Example.UpdateOutputsValues | assets/csharp/model.cs:169-175 | each c becomes a plus b (a 32-bit wrapping add for integers), a or b, or the concatenation, and every other property keeps its value |
| Fmi2Example.UpdateOutputsIdempotent | assets/csharp/model.cs:169-175 | recomputing the outputs twice is the same as once |
| Fmi2Example.ResetForgets | assets/python/fmi2/model.py:57-68 | the state after a reset is the defaults with outputs recomputed, whatever it was before |
| Fmi2Example.HelloWorld | assets/python/fmi2/model.py:209-223 | with a = 1 and 2, true and false, "Hello " and "World!", a step gives 3, true and "Hello World!" |
| Fmi2Example.Coerced | assets/csharp/model.cs:181 | a value assigned to a property takes the property's type, is itself when it already had it, and stays representable |
| Fmi2Example.Written | assets/csharp/model.cs:177-185 | a reflection setter fails exactly when some zipped pair cannot be assigned (C#: the value neither has nor widens to the property's type; Java: not exactly its type), and keeps the fields well formed |
| Fmi2Example.WrittenUntouched | assets/csharp/model.cs:177-185 | a property no pair names keeps its value |
| Fmi2Example.WrittenLast | assets/csharp/model.cs:177-185 | after a batch that succeeds, a property holds the value the last pair naming it assigned, converted to the property's type |
| Fmi2Example.FirstRefused | assets/csharp/model.cs:177-185 | a first pair that cannot be written raises its error and writes nothing |
| Fmi2Example.WriteAll | assets/csharp/model.cs:177-185 | the write loop produces the error and fields `Written` gives, for the C# and the Java assignment rules alike |
| Fmi2Example.ReadAll | assets/csharp/model.cs:187-198 | a read returns one value per reference, each the property's value, exactly when every reference resolves to a property of the requested type, and otherwise raises the first failure's error or `InvalidCastException` |
| CsharpFmi2Model.Attributes | assets/csharp/model.cs:38-42 | the reference table has exactly the references of `UNIFMU_REFS_TO_ATTRS` |
| CsharpFmi2Model.AttributesNamed | assets/csharp/model.cs:41 | a reference maps to a property exactly when the table gives that property's name |
| CsharpFmi2Model.Targets | assets/csharp/model.cs:181 | each reference resolves through the table, in order |
| CsharpFmi2Model.SetResult | assets/csharp/model.cs:177-185 | `SetValueReflection` returns Ok exactly when every zipped pair resolves to a property whose type the value has or widens to (`int` to `double`), and keeps the fields well formed |
| CsharpFmi2Model.SetThenGet | assets/csharp/model.cs:177-198 | values set under distinct references are read back converted to their properties' types, and properties no reference names keep their values |
| CsharpFmi2Model.IntegerWidensToReal | assets/csharp/model.cs:72-75 | `Fmi2SetInteger` on a `double` property such as `real_a` (line 13) stores the integer converted to `double` and returns Ok |
| CsharpFmi2Model.WriteFirst | assets/csharp/model.cs:129-140 | the state image writes the properties one after another |
| CsharpFmi2Model.WriteThree | assets/csharp/model.cs:129-140 | three consecutive properties are written as their three encodings, in order, before the rest of the image |
| CsharpFmi2Model.ImageLayout | assets/csharp/model.cs:123-144 | the state image is three doubles, three 32-bit integers, three booleans and three length-prefixed strings, in declaration order |
| CsharpFmi2Model.RealsLayout | assets/csharp/model.cs:129-131 | the image starts with the three doubles |
| CsharpFmi2Model.IntegersLayout | assets/csharp/model.cs:132-134 | the three 32-bit integers follow the doubles |
| CsharpFmi2Model.BooleansLayout | assets/csharp/model.cs:135-137 | the three booleans follow the integers |
| CsharpFmi2Model.StringsLayout | assets/csharp/model.cs:138-140 | the three strings end the image |
| CsharpFmi2Model.ReadProperties | assets/csharp/model.cs:150-164 | the only error reading raises is `EndOfStreamException`, and the fields stay well formed |
| CsharpFmi2Model.ReadWritten | assets/csharp/model.cs:123-164 | reading what was written for some properties restores exactly those, whatever bytes follow, when the strings' UTF-8 byte counts are `int`s |
| CsharpFmi2Model.Restored | assets/csharp/model.cs:146-167 | `Fmi2ExtDeserialize` returns Ok or raises `EndOfStreamException`, keeping the fields well formed |
| CsharpFmi2Model.SaveRestore | assets/csharp/model.cs:123-167 | deserializing a serialized state restores every property and returns Ok, whatever bytes follow, when the strings' UTF-8 byte counts are `int`s |
| CsharpFmi2Model.TruncatedImage | assets/csharp/model.cs:152-153 | a truncated image raises `EndOfStreamException` after the reads that succeeded |
| CsharpFmi2Model.Model.constructor | assets/csharp/model.cs:29-44 | a new model holds the defaults and the reference table read from `UNIFMU_REFS_TO_ATTRS` |
| CsharpFmi2Model.Model.DoStep | assets/csharp/model.cs:45-49 | a step recomputes the outputs and returns Ok |
| CsharpFmi2Model.Model.ExitInitializationMode | assets/csharp/model.cs:61-65 | leaving initialization recomputes the outputs and returns Ok |
| CsharpFmi2Model.Model.SetupExperiment | assets/csharp/model.cs:51-54 | returns Ok and changes nothing |
| CsharpFmi2Model.Model.EnterInitializationMode | assets/csharp/model.cs:56-59 | returns Ok and changes nothing |
| CsharpFmi2Model.Model.CancelStep | assets/csharp/model.cs:108-111 | returns Ok and changes nothing |
| CsharpFmi2Model.Model.Terminate | assets/csharp/model.cs:118-121 | returns Ok and changes nothing |
| CsharpFmi2Model.Model.Reset | assets/csharp/model.cs:113-116 | returns Ok and changes nothing: the C# reset does not reset |
| CsharpFmi2Model.Model.SetValues | assets/csharp/model.cs:67-86 | every typed setter changes fields and outcome as `SetResult` says |
| CsharpFmi2Model.Model.GetValues | assets/csharp/model.cs:88-106 | a typed getter returns Ok and one value per reference exactly when every reference resolves to a property of its type, and otherwise raises at the first that does not |
| CsharpFmi2Model.Model.Serialize | assets/csharp/model.cs:123-144 | serializing returns Ok and the state image of the fields |
| CsharpFmi2Model.Model.Deserialize | assets/csharp/model.cs:146-167 | deserializing changes fields and outcome as `Restored` says |
| JavaFmi2Model.Target | assets/java/src/fmi2/java/Model.java:34-46 | a reference resolves to a field exactly when it is below 12, the length of `references_to_attributes` |
| JavaFmi2Model.Targets | assets/java/src/fmi2/java/Model.java:218 | each reference resolves through the list, in order |
| JavaFmi2Model.TargetKinds | assets/java/src/fmi2/java/Model.java:16-46 | references 0-2 are doubles, 3-5 integers, 6-8 booleans and 9-11 strings |
| JavaFmi2Model.SetResult | assets/java/src/fmi2/java/Model.java:226-233 | `SetValue` returns exactly when every zipped pair resolves to a field of exactly the value's type (the fields are boxed, so `Field.set` does not widen), and keeps the fields well formed |
| JavaFmi2Model.SetIntegers | assets/java/src/fmi2/java/Model.java:104-107 | integers set under distinct integer references are stored, and the setter returns OK |
| JavaFmi2Model.Model.constructor | assets/java/src/fmi2/java/Model.java:31-49 | a new model holds the defaults with outputs recomputed |
| JavaFmi2Model.Model.DoStep | assets/java/src/fmi2/java/Model.java:93-96 | a step recomputes the outputs and returns OK |
| JavaFmi2Model.Model.ExitInitializationMode | assets/java/src/fmi2/java/Model.java:144-147 | leaving initialization recomputes the outputs and returns OK |
| JavaFmi2Model.Model.Reset | assets/java/src/fmi2/java/Model.java:153-165 | reset gives the defaults with outputs recomputed, whatever the state before |
| JavaFmi2Model.Model.SetupExperiment | assets/java/src/fmi2/java/Model.java:149-151 | returns OK and changes nothing |
| JavaFmi2Model.Model.EnterInitializationMode | assets/java/src/fmi2/java/Model.java:140-142 | returns OK and changes nothing |
| JavaFmi2Model.Model.Terminate | assets/java/src/fmi2/java/Model.java:167-169 | returns OK and changes nothing |
| JavaFmi2Model.Model.CancelStep | assets/java/src/fmi2/java/Model.java:171-173 | returns OK and changes nothing |
| JavaFmi2Model.Model.SetDebugLogging | assets/java/src/fmi2/java/Model.java:208-210 | returns OK and changes nothing |
| JavaFmi2Model.Model.SetValues | assets/java/src/fmi2/java/Model.java:98-117 | every typed setter changes fields and outcome as `SetResult` says |
| JavaFmi2Model.Model.GetValues | assets/java/src/fmi2/java/Model.java:119-138 | a getter returns OK and each referenced field exactly when every reference is below 12, and otherwise raises `IndexOutOfBoundsException` |
| JavaFmi2Model.Model.Serialize | assets/java/src/fmi2/java/Model.java:175-183 | serializing returns OK and an image of the twelve fields |
| JavaFmi2Model.Model.Deserialize | assets/java/src/fmi2/java/Model.java:185-206 | deserializing an image installs its twelve fields and returns OK |
| PythonFmi2Model.Target | assets/python/fmi2/model.py:16-29 | a reference names an attribute exactly when it is below 12 |
| PythonFmi2Model.Recompute | assets/python/fmi2/model.py:161-165 | `_update_outputs` fails only with `TypeError`, and otherwise keeps every attribute present |
| PythonFmi2Model.RecomputeSucceeds | assets/python/fmi2/model.py:161-165 | `_update_outputs` succeeds exactly when each of the four sums succeeds |
| PythonFmi2Model.RecomputeValues | assets/python/fmi2/model.py:161-165 | each c becomes the combination of its a and b, and every other attribute keeps its value |
| PythonFmi2Model.RecomputeIdempotent | assets/python/fmi2/model.py:161-165 | recomputing the outputs twice is the same as once |
| PythonFmi2Model.HelloWorldAttributes | assets/python/fmi2/model.py:209-223 | with a = 1 and 2, true and false, "Hello " and "World!", the outputs are 3, true and "Hello World!" |
| PythonFmi2Model.MistypedInput | assets/python/fmi2/model.py:162 | a string added to a float raises `TypeError` |
| PythonFmi2Model.ResetValues | assets/python/fmi2/model.py:57-65 | `fmi2Reset` assigns exactly the eight inputs |
| PythonFmi2Model.Initial | assets/python/fmi2/model.py:5-31 | a new model has every attribute |
| PythonFmi2Model.ResetIsInitial | assets/python/fmi2/model.py:57-68 | a reset from any state gives the state of a new model |
| PythonFmi2Model.Refused | assets/python/fmi2/model.py:145-150 | the pairs before the returned index name known references, and the one at it does not |
| PythonFmi2Model.Props | assets/python/fmi2/model.py:16-29 | each known reference maps to the attribute of its position |
| PythonFmi2Model.SetResult | assets/python/fmi2/model.py:145-150 | `_set_value` returns ok exactly when every zipped reference is known, and raises `KeyError` otherwise |
| PythonFmi2Model.WriteAttributes | assets/python/fmi2/model.py:145-150 | the write loop produces the outcome and attributes `SetResult` gives |
| PythonFmi2Model.PartialBatch | assets/python/fmi2/model.py:147-148 | a batch of a known and then an unknown reference raises `KeyError` after writing the first |
| PythonFmi2Model.ReadBack | assets/python/fmi2/model.py:145-159 | the last value written under a reference is the one read back |
| PythonFmi2Model.ReadAttributes | assets/python/fmi2/model.py:152-159 | a read returns the attributes in order exactly when every reference is known, and raises `KeyError` otherwise |
| PythonFmi2Model.Dump | assets/python/fmi2/model.py:70-87 | the pickled tuple holds the twelve attributes in declaration order |
| PythonFmi2Model.Position | assets/python/fmi2/model.py:72-84 | every attribute has a position in the tuple |
| PythonFmi2Model.AllDeclared | assets/python/fmi2/model.py:16-29 | the twelve attributes are all declared |
| PythonFmi2Model.Load | assets/python/fmi2/model.py:104-115 | unpacking a twelve-entry tuple sets every attribute |
| PythonFmi2Model.Restore | assets/python/fmi2/model.py:89-117 | deserialization returns ok exactly when the tuple has twelve entries, and otherwise raises `ValueError` with nothing changed |
| PythonFmi2Model.RestoreOwnImage | assets/python/fmi2/model.py:70-117 | deserializing a dumped tuple restores every attribute, whatever the state before |
| PythonFmi2Model.DumpRestored | assets/python/fmi2/model.py:70-117 | dumping after deserializing a tuple gives that tuple back |
| PythonFmi2Model.Model.constructor | assets/python/fmi2/model.py:5-31 | a new model holds the reset values with the outputs recomputed |
| PythonFmi2Model.Model.DoStep | assets/python/fmi2/model.py:35-39 | a step recomputes the outputs and returns ok, or raises `TypeError` with nothing changed |
| PythonFmi2Model.Model.ExitInitializationMode | assets/python/fmi2/model.py:47-49 | leaving initialization recomputes the outputs and returns ok, or raises `TypeError` with nothing changed |
| PythonFmi2Model.Model.UpdateOutputs | assets/python/fmi2/model.py:161-165 | the outputs are recomputed, or `TypeError` raised with nothing changed |
| PythonFmi2Model.Model.Reset | assets/python/fmi2/model.py:57-68 | reset gives the state of a new model and returns ok |
| PythonFmi2Model.Model.SetDebugLogging | assets/python/fmi2/model.py:41-42 | returns ok and changes nothing |
| PythonFmi2Model.Model.EnterInitializationMode | assets/python/fmi2/model.py:44-45 | returns ok and changes nothing |
| PythonFmi2Model.Model.SetupExperiment | assets/python/fmi2/model.py:51-52 | returns ok and changes nothing |
| PythonFmi2Model.Model.Terminate | assets/python/fmi2/model.py:54-55 | returns ok and changes nothing |
| PythonFmi2Model.Model.SetValues | assets/python/fmi2/model.py:131-141 | every typed setter changes attributes and outcome as `SetResult` says |
| PythonFmi2Model.Model.GetValues | assets/python/fmi2/model.py:119-129 | a getter returns ok and the attributes in order exactly when every reference is known, and raises `KeyError` otherwise |
| PythonFmi2Model.Model.Serialize | assets/python/fmi2/model.py:70-87 | serializing returns ok and the tuple of the twelve attributes |
| PythonFmi2Model.Model.Deserialize | assets/python/fmi2/model.py:89-117 | deserializing changes attributes and outcome as `Restore` says |
| Fmi3Api.Escalate | fmiapi/src/fmi3/mod.rs:646-655 | `escalate_status`, called at :648 and :652 but not defined in the modelled sources, read as the more severe status (see Fmi3Api.Escalate under Left out): the result is one of the two statuses and at least as severe as both |
| Fmi3Api.EscalateAbsorbs | fmiapi/src/fmi3/mod.rs:646-655 | under that reading, what the getter's two branches rely on: escalating by Error (the wrong count, :648) always gives a fault; escalating by Warning (the empty reply, :652) never gives OK and keeps a status that is already Warning or worse; escalating again by the same status changes nothing; a fault stays a fault |
| Fmi3Api.StatusOrFatal | fmiapi/src/fmi3/mod.rs:3457-3465 | a status number from 0 to 4 decodes to the status with that number, and any other number to Fatal |
| Fmi3Api.StatusOrFatalRoundTrip | fmiapi/src/fmi3/mod.rs:3457-3465 | decoding the number of a status gives that status back |
| Fmi3Api.ParseStatus | fmiapi/src/fmi3/mod.rs:3457-3465 | `parse_status` returns the decoded status and logs a fatal "Unknown status" event exactly when the number is unknown |
| Fmi3Api.Parsed | fmiapi/src/fmi3/mod.rs:3441-3442 | a successful reply is paired with its parsed status, and a failed one stays failed |
| Fmi3Api.Exchange | fmiapi/src/fmi3/mod.rs:3436-3448 | one exchange sends what the slave's dispatch sends and returns its reply with the status parsed, only ever adding log events |
| Fmi3Api.StatusReply | fmiapi/src/fmi3/mod.rs:3441-3448 | a failed exchange answers Error, and a successful one answers its parsed status |
| Fmi3Api.SendCmdRecvStatus | fmiapi/src/fmi3/mod.rs:3436-3448 | `send_cmd_recv_status` sends the command and answers the status reply, or Error when the exchange fails |
| Fmi3Api.StatusReplyFaults | fmiapi/src/fmi3/mod.rs:3436-3465 | a failed exchange is a fault, an unknown status number is Fatal, and a known one is passed through |
| Fmi3Api.ReadAll | fmiapi/src/fmi3/mod.rs:80-92 | each category pointer is read as a C string, in order |
| Fmi3Api.ParseCategories | fmiapi/src/fmi3/mod.rs:80-95 | the categories parse exactly when every string reads, and then each becomes the category its text names, in order |
| Fmi3Api.NamesOfParsed | fmiapi/src/fmi3/mod.rs:103-106 | the names sent to the backend are the strings the importer passed, in order |
| Fmi3Api.SetDebugLogging | fmiapi/src/fmi3/mod.rs:71-131 | as written: an unreadable category answers Error with nothing sent and the filter unchanged; with no categories every category ends up enabled, also when logging is switched off (the empty blacklist of `disable_all_categories`); listed categories are enabled or disabled on top of the old filter; the parsed names and flag are sent to the backend |
| Fmi3Api.SetDebugLoggingCorrected | fmiapi/src/fmi3/mod.rs:71-131 | corrected: as SetDebugLogging, except that with no categories every category is switched on or off as the flag says |
| Fmi3Api.GetterOutcome | fmiapi/src/fmi3/mod.rs:635-656 | values are written exactly when the status defines outputs (`output_is_defined`, a parameter here) and the reply has exactly as many values as the buffer; a wrong count escalates to Error and an empty reply to Warning; otherwise the status is passed on |
| Fmi3Api.GetterOutcomeSeverity | fmiapi/src/fmi3/mod.rs:635-656 | under the reading of `escalate_status` as the more severe status (see Fmi3Api.Escalate under Left out): a getter never reports a status below the backend's, a wrong count with defined outputs is always a fault (:648), an empty reply with defined outputs is never OK (:652), and values are written only when they fill the buffer (:640-641) |
| Fmi3Api.Float64Outcome | fmiapi/src/fmi3/mod.rs:631-667 | a reply of any other kind, or a failed exchange, answers Error and writes nothing |
| Fmi3Api.GetFloat64 | fmiapi/src/fmi3/mod.rs:614-668 | `fmi3GetFloat64` sends the value references, answers as `Float64Outcome` and writes the buffer only when it says so |
| Fmi3Api.CastReply | fmiapi/src/fmi3/mod.rs:712-720 | a narrow integer getter casts every value into its type's range, and wider getters pass the values through |
| Fmi3Api.IntegersOutcome | fmiapi/src/fmi3/mod.rs:693-776 | a reply of another kind answers Error, and written values fill the buffer |
| Fmi3Api.GetIntegers | fmiapi/src/fmi3/mod.rs:693-1340 | the integer getters send their references, answer as `IntegersOutcome` and write the cast values only when it says so |
| Fmi3Api.DoStepStatus | fmiapi/src/fmi3/mod.rs:377-437 | a failed exchange or a reply of another kind answers Error |
| Fmi3Api.DoStep | fmiapi/src/fmi3/mod.rs:357-437 | `fmi3DoStep` sends the step; when the status defines outputs, every output pointer that is not null receives the reply's value and any null pointer escalates to Warning; otherwise nothing is written |
| Fmi3Api.WriteStepOutputs | fmiapi/src/fmi3/mod.rs:380-428 | each pointer that is not null gets its reply field, and the status escalates to Warning exactly when one is null |
| Fmi3Api.StateOutcome | fmiapi/src/fmi3/mod.rs:3161-3187 | a failed exchange or a reply of another kind answers Error and stores no state |
| Fmi3Api.GetFmuState | fmiapi/src/fmi3/mod.rs:3131-3188 | a null instance or state answers Error; otherwise a defined reply overwrites the existing state in place or allocates a new one holding the serialized bytes |
| Fmi3Api.SetFmuState | fmiapi/src/fmi3/mod.rs:3191-3225 | a null instance or state answers Error and sends nothing; otherwise the state's bytes are sent for deserialization |
| Fmi3Api.FreeFmuState | fmiapi/src/fmi3/mod.rs:3228-3265 | freeing always answers OK and clears the state pointer unless the instance is null |
| Fmi3Api.SerializedFmuStateSize | fmiapi/src/fmi3/mod.rs:3268-3275 | the serialized size is the state's byte count |
| Fmi3Api.SerializeFmuState | fmiapi/src/fmi3/mod.rs:3278-3298 | a state larger than the buffer answers Error and leaves the buffer alone; otherwise its bytes are copied to the front of the buffer and the rest is untouched |
| Fmi3Api.DeserializeFmuState | fmiapi/src/fmi3/mod.rs:3301-3328 | a null cell answers Error; otherwise the cell holds exactly the bytes given, reusing its state or allocating one |
| Fmi3Api.SerializeRoundTrip | fmiapi/src/fmi3/mod.rs:3268-3328 | serializing a state into a buffer of its size and deserializing the buffer restores the same bytes |
| Fmi3Api.ResourcesDir | fmiapi/src/fmi3/mod.rs:241-277 | a plain path is used as it is, a `file:` URI is converted to a path, and the other URI schemes are refused |
| Fmi3Api.DriveLetterIsPlainPath | fmiapi/src/fmi3/mod.rs:234-245 | a Windows path with a drive letter is taken as a path, not as a URI |
| Fmi3Dispatching.ProtoStatusOf | fmiapi/src/fmi3_dispatcher.rs:453 | the generated `status()` getter keeps the numbers 0 to 4 and reads any other number as OK |
| Fmi3Dispatching.StatusOfReturnOrdered | fmiapi/src/fmi3_dispatcher.rs:451-461 | `into()` keeps each of the five statuses and their order of severity, and reads an unknown number as OK |
| Fmi3Dispatching.CheckedStatus | fmiapi/src/fmi3_dispatcher.rs:174 | `try_from(..).unwrap()` succeeds exactly on the numbers 0 to 4, with that status, and panics otherwise |
| Fmi3Dispatching.IntoStatus | fmiapi/src/fmi3_dispatcher.rs:114-158 | the status calls pass a failure through and convert the reply's status with `into()` |
| Fmi3Dispatching.GetterReply | fmiapi/src/fmi3_dispatcher.rs:161-362 | a getter reply with a known status keeps it and has values exactly when the reply's list is not empty |
| Fmi3Dispatching.NarrowedReply | fmiapi/src/fmi3_dispatcher.rs:195-261 | the 8- and 16-bit getters cast every value into their type's range with `as`, and have values exactly when the list is not empty |
| Fmi3Dispatching.NarrowedValues | fmiapi/src/fmi3_dispatcher.rs:206-257 | the cast keeps the count, lands every value in range, and leaves a value already in range unchanged |
| Fmi3Dispatching.SerializeReply | fmiapi/src/fmi3_dispatcher.rs:44-50 | a serialize reply with a known status carries its state bytes, and an unknown status panics |
| Fmi3Dispatching.EmptyReply | fmiapi/src/fmi3_dispatcher.rs:40-42 | an empty reply succeeds exactly when the exchange does |
| Fmi3Dispatching.DoStepStatusOnly | fmiapi/src/fmi3_dispatcher.rs:158 | the step's answer depends on its status alone; the step's other outputs are dropped |
| Fmi3Dispatching.AwaitHandshake | fmiapi/src/fmi3_dispatcher.rs:40-42 | the handshake only receives one message and sends nothing |
| Fmi3Dispatching.StatusCommand | fmiapi/src/fmi3_dispatcher.rs:52-141 | each status call sends its command once and answers with its converted status |
| Fmi3Dispatching.DoStep | fmiapi/src/fmi3_dispatcher.rs:143-159 | the step sends its three arguments and answers with its converted status |
| Fmi3Dispatching.InstantiateCoSimulation | fmiapi/src/fmi3_dispatcher.rs:82-112 | the co-simulation instantiation sends every argument as given and succeeds when the exchange does |
| Fmi3Dispatching.Unimplemented | fmiapi/src/fmi3_dispatcher.rs:65-370 | model-exchange instantiation and the binary getter reach `todo!()` and panic before sending anything |
| Fmi3Dispatching.SerializeFmuState | fmiapi/src/fmi3_dispatcher.rs:44-50 | serializing sends the command once and decodes the reply as `SerializeReply` |
| Fmi3Dispatching.GetValues | fmiapi/src/fmi3_dispatcher.rs:161-362 | the getters that need no cast send their references and decode as `GetterReply` |
| Fmi3Dispatching.GetNarrowed | fmiapi/src/fmi3_dispatcher.rs:195-261 | the 8- and 16-bit getters send their references and decode as `NarrowedReply` |
| Fmi3Dispatching.FreeInstance | fmiapi/src/fmi3_dispatcher.rs:390-397 | freeing sends the command without awaiting a reply and fails only when sending does |
| Fractions.Gcd | assets/csharp/fmi3/model.cs:872 | `GreatestCommonDivisor` is positive unless both arguments are zero |
| Fractions.GcdDivides | assets/csharp/fmi3/model.cs:872 | the greatest common divisor divides both numbers |
| Fractions.GcdGreatest | assets/java/src/fmi3/java/Model.java:1115 | every common divisor divides the greatest common divisor |
| Fractions.Reduced | assets/csharp/fmi3/model.cs:872-874 | dividing both numbers by their greatest common divisor leaves coprime numbers |
| Fractions.IndexOf | assets/csharp/fmi3/model.cs:880 | `IndexOf` finds the first occurrence of the character, or reports that there is none |
| Fractions.PointedDigits | assets/csharp/fmi3/model.cs:866 | a parsed plain decimal has a non-negative digit value and scale |
| Fractions.ParseDotNetDecimal | assets/csharp/fmi3/model.cs:866 | a parsed `Decimal` has a non-negative scale |
| Fractions.CharactersAfterPoint | assets/csharp/fmi3/model.cs:877-885 | `GetScale` counts at most the length of the text |
| Fractions.ReducedParts | assets/csharp/fmi3/model.cs:869-874 | the reduced denominator is positive |
| Fractions.ReducedPartsExact | assets/csharp/fmi3/model.cs:869-874 | the reduced fraction equals the decimal (numerator times 10^scale equals digits times denominator) and is in lowest terms |
| Fractions.CSharpFraction | assets/csharp/fmi3/model.cs:864-875 | a C# fraction has a positive denominator and both parts fit in `ulong`; it never fails with an arithmetic error |
| Fractions.CSharpFractionExact | assets/csharp/fmi3/model.cs:864-875 | a successful C# fraction equals the parsed decimal and is in lowest terms |
| Fractions.CSharpFractionExamples | assets/csharp/fmi3/model.cs:864-875 | "1.5" gives 3/2 and "2.5" gives 5/2 |
| Fractions.LongValue | assets/java/src/fmi3/java/Model.java:1116-1117 | `longValue` lands in the 64-bit range and keeps a value already in it |
| Fractions.JavaFraction | assets/java/src/fmi3/java/Model.java:1110-1118 | the Java fraction never fails with an overflow error (`longValue` truncates silently) |
| Fractions.JavaFractionExact | assets/java/src/fmi3/java/Model.java:1110-1118 | when the reduced parts fit in `long`, the Java fraction equals the decimal and is in lowest terms |
| Fractions.JavaFractionNegativeScale | assets/java/src/fmi3/java/Model.java:1111-1113 | "1.0E7" has a negative scale, so `BigInteger.TEN.pow` throws `ArithmeticException` |
| JavaFmi2Backend.Ordinal | assets/java/src/fmi2/java/Model.java:265-272 | the statuses are numbered 0 to 5 in declaration order |
| JavaFmi2Backend.ToProtobufStatusTotal | assets/java/src/fmi2/java/AbstractBackend.java:28-31 | every model status, Pending included, converts by ordinal to the protobuf status of the same name |
| JavaFmi2Backend.StatusReply | assets/java/src/fmi2/java/AbstractBackend.java:21-36 | the status reply carries exactly the model's status |
| JavaFmi2Backend.RouteAnswersAwaited | assets/java/src/fmi2/java/AbstractBackend.java:91-330 | every command the dispatcher sends, the debug-logging switch included, gets the message the dispatcher decodes, except the three derivative commands; free-instance ends the process with 0 |
| JavaFmi2Backend.RouteDrops | assets/java/src/fmi2/java/AbstractBackend.java:331-335 | a command is dropped exactly when the dispatcher never sends it or it is a derivative command; only free-instance ends the process, and nothing is answered before an exit |
| JavaFmi2Backend.Handle | assets/java/src/fmi2/java/AbstractBackend.java:93-105 | the instantiation builds the model and replies Empty; free-instance exits with 0 without a reply; a model call before any instantiation raises NullPointerException |
| JavaFmi2Backend.SessionAnswered | assets/java/src/fmi2/java/AbstractBackend.java:88-336 | a session that instantiates and then sends answered commands whose model calls return without logging gets the Ok handshake and one decodable reply per command, in order |
| JavaFmi2Backend.FreeInstanceExits | assets/java/src/fmi2/java/AbstractBackend.java:275-276 | free-instance ends the process with 0; nothing is sent and nothing after it is read |
| JavaFmi2Backend.UnmatchedCommandDropped | assets/java/src/fmi2/java/AbstractBackend.java:331-335 | an unset command or one without a branch is dropped and the loop goes on as if it had not come |
| JavaFmi2Backend.LogRefusedEndsProcess | assets/java/src/fmi2/java/AbstractBackend.java:55-70 | a command other than continue after a log reply ends the process with 1 after that one log reply |
| JavaFmi3Backend.Ordinal | assets/java/src/fmi3/java/Model.java:1084-1091 | the statuses are numbered 0 to 5 in declaration order |
| JavaFmi3Backend.ForNumber | assets/java/src/fmi3/java/AbstractBackend.java:25-28 | a protobuf status exists exactly for the numbers 0 to 4, and it carries that number |
| JavaFmi3Backend.ToProtobufStatusByOrdinal | assets/java/src/fmi3/java/AbstractBackend.java:25-28 | every status but Pending converts to the protobuf status with its own ordinal, different statuses to different ones, and Pending to null |
| JavaFmi3Backend.ToProtobufStatusNames | assets/java/src/fmi3/java/AbstractBackend.java:25-28 | OK, Warning, Discard, Error and Fatal convert to the protobuf statuses of the same names |
| JavaFmi3Backend.StatusReply | assets/java/src/fmi3/java/AbstractBackend.java:30-43 | a status reply carrying the status's ordinal is sent exactly for statuses other than Pending; Pending raises NullPointerException |
| JavaFmi3Backend.RouteAnswersAwaited | assets/java/src/fmi3/java/AbstractBackend.java:113-787 | every command the API layer sends and waits on, the debug-logging switch excepted, gets the reply it waits for, and free-instance ends the process with 0 |
| JavaFmi3Backend.RouteDrops | assets/java/src/fmi3/java/AbstractBackend.java:781-789 | a command is dropped exactly when the API layer never sends it or it is the debug-logging switch; only free-instance ends the process |
| JavaFmi3Backend.Handle | assets/java/src/fmi3/java/AbstractBackend.java:115-138 | the co-simulation instantiation builds the model and replies Empty; a model call before any instantiation raises NullPointerException |
| JavaFmi3Backend.SessionAnswered | assets/java/src/fmi3/java/AbstractBackend.java:108-787 | a session that instantiates and then sends awaited commands whose model calls return gets the Ok handshake and one awaited reply per command, in order |
| JavaFmi3Backend.DebugLoggingDropped | assets/java/src/fmi3/java/AbstractBackend.java:781-782 | the debug-logging switch, for which the API layer awaits a status, is dropped: the loop goes on as if it had not come |
| JavaFmi3Model.RegistryGroups | assets/java/src/fmi3/java/Model.java:220-253 | a reference is mapped exactly when it is in the regular, clocked, tunable or structural group, and no reference is in two groups |
| JavaFmi3Model.Default | assets/java/src/fmi3/java/Model.java:13-108 | each field's initial value has the field's Java type |
| JavaFmi3Model.Defaults | assets/java/src/fmi3/java/Model.java:13-108 | the initial fields are well typed |
| JavaFmi3Model.TripleKinds | assets/java/src/fmi3/java/Model.java:935-956 | an output and its two inputs have the same type, and none is the float vector |
| JavaFmi3Model.CombineTriple | assets/java/src/fmi3/java/Model.java:935-956 | each output is computed as a value of its own type |
| JavaFmi3Model.UpdateOutputs | assets/java/src/fmi3/java/Model.java:935-956 | `update_outputs` keeps the fields well typed and changes only the outputs |
| JavaFmi3Model.UpdateOutputsKeepsInputs | assets/java/src/fmi3/java/Model.java:935-956 | the two inputs of every output are left unchanged |
| JavaFmi3Model.UpdateOutputsValues | assets/java/src/fmi3/java/Model.java:935-956 | each output becomes the combination of its two inputs: Java addition, or, concatenation, or byte-wise xor over the shorter length |
| JavaFmi3Model.UpdateOutputsIdempotent | assets/java/src/fmi3/java/Model.java:935-956 | `update_outputs` is idempotent |
| JavaFmi3Model.UpdateClocks | assets/java/src/fmi3/java/Model.java:958-960 | clock_c becomes clock_a and clock_b, and nothing else changes |
| JavaFmi3Model.UpdateClockedOutputs | assets/java/src/fmi3/java/Model.java:962-964 | only clocked_variable_c changes |
| JavaFmi3Model.Refresh | assets/java/src/fmi3/java/Model.java:260-262 | recomputing outputs, clocks and clocked outputs keeps the fields well typed |
| JavaFmi3Model.RestoreRecomputes | assets/java/src/fmi3/java/Model.java:815-817 | after the recomputation every reference is present, fields other than the outputs, clock_c and clocked_variable_c keep their values, and clocked_variable_c grows by a plus b with 32-bit wrap-around |
| JavaFmi3Model.RefreshKeeps | assets/java/src/fmi3/java/Model.java:815-817 | the recomputation leaves every field other than the outputs, clock_c and clocked_variable_c as it was |
| JavaFmi3Model.RefreshAccumulates | assets/java/src/fmi3/java/Model.java:815-817 | after the recomputation clocked_variable_c is its old value plus clocked_variable_a plus clocked_variable_b, each sum wrapping at 32 bits |
| JavaFmi3Model.Initial | assets/java/src/fmi3/java/Model.java:125-263 | the constructed fields are the defaults after the three updates, and are well typed |
| JavaFmi3Model.JavaNext | assets/java/src/fmi3/java/Model.java:591-735 | EnterConfigurationMode fails with Error and no mode change when there is no tunable structural parameter; every other mode operation follows the FMI 3 mode transitions |
| JavaFmi3Model.InitializationReached | assets/java/src/fmi3/java/Model.java:591-604 | EnterInitializationMode reaches InitializationMode from any mode, and leaving it goes to StepMode when event mode is not used |
| JavaFmi3Model.SetWarning | assets/java/src/fmi3/java/Model.java:875-915 | a write draws a warning exactly when a clocked or tunable reference is written outside Event and Initialization mode, or the structural one outside Configuration and Reconfiguration mode |
| JavaFmi3Model.SetFromCases | assets/java/src/fmi3/java/Model.java:864-933 | `SetValue` never refuses a batch: it returns exactly when every pair is writable, then with every pair written, and with Warning exactly when some reference drew a warning |
| JavaFmi3Model.PairsCons | assets/java/src/fmi3/java/Model.java:871-876 | a batch is writable, or warns, exactly as its first pair and the rest do |
| JavaFmi3Model.WritableCons | assets/java/src/fmi3/java/Model.java:871-876 | a batch is writable exactly when its first pair has the property's type and the rest of the batch is writable |
| JavaFmi3Model.WarnsCons | assets/java/src/fmi3/java/Model.java:871-876 | a batch draws a warning exactly when its first reference does or the rest of the batch does |
| JavaFmi3Model.SetFromWellTyped | assets/java/src/fmi3/java/Model.java:864-933 | the writes keep the fields well typed, also when one of them raises part-way |
| JavaFmi3Model.Flatten | assets/java/src/fmi3/java/Model.java:847-853 | a `Float[]` field is returned as its elements in order and every other field as itself |
| JavaFmi3Model.GetFrom | assets/java/src/fmi3/java/Model.java:826-862 | the only exception a read raises is NullPointerException, for a reference that names no field |
| JavaFmi3Model.GetFromCases | assets/java/src/fmi3/java/Model.java:826-862 | a read succeeds exactly when every reference names a field, and then returns Warning exactly when a clocked reference is read outside Event and Initialization mode |
| JavaFmi3Model.GetFromValues | assets/java/src/fmi3/java/Model.java:826-862 | reading references that hold scalar values returns those values, in order |
| JavaFmi3Model.GetAfterSet | assets/java/src/fmi3/java/Model.java:826-933 | scalar values set under distinct references of the right type are read back unchanged |
| JavaFmi3Model.VectorFlattened | assets/java/src/fmi3/java/Model.java:847-853 | reading the float32 vector returns its elements, one value per element |
| JavaFmi3Model.FractionOf | assets/java/src/fmi3/java/Model.java:1110-1119 | `new Fraction(text)` fails only with NumberFormatException or ArithmeticException |
| JavaFmi3Model.StoredFraction | assets/java/src/fmi3/java/Model.java:546-589 | the fraction of a reference with no stored interval or shift is a NumberFormatException |
| JavaFmi3Model.NullFraction | assets/java/src/fmi3/java/Model.java:553-554 | the text "null" of a missing entry does not parse as a decimal |
| JavaFmi3Model.WriteFields | assets/java/src/fmi3/java/Model.java:864-933 | the write loop produces the outcome, fields and log messages `SetFrom` gives |
| JavaFmi3Model.SetFromStep | assets/java/src/fmi3/java/Model.java:866-933 | one pair of the write loop adds its warning to the log; a failed write ends the batch with the fields as they were, and a successful one continues with the rest |
| JavaFmi3Model.ReadFields | assets/java/src/fmi3/java/Model.java:826-862 | the read loop produces the values and log messages `GetFrom` gives |
| JavaFmi3Model.PrefixedStep | assets/java/src/fmi3/java/Model.java:826-862 | reading one more present reference appends its values to those read and its clock warning to those logged |
| JavaFmi3Model.StoredFractions | assets/java/src/fmi3/java/Model.java:546-589 | the fraction loop succeeds exactly when every reference's fraction does, and then returns each reference's numerator and denominator in order |
| JavaFmi3Model.CollectFractions | assets/java/src/fmi3/java/Model.java:546-589 | for any fraction function, the loop fails exactly when some reference's fraction fails, and otherwise returns the numerators and denominators in reference order |
| JavaFmi3Model.Restored | assets/java/src/fmi3/java/Model.java:746-824 | deserialization takes the mode and clock maps from the image and keeps the fields well typed |
| JavaFmi3Model.Model.constructor | assets/java/src/fmi3/java/Model.java:125-263 | a new model is Instantiated with event mode unused, the initial fields, one structural parameter, and an interval and shift of 1.0 for reference 1001 |
| JavaFmi3Model.Model.DoStep | assets/java/src/fmi3/java/Model.java:314-323 | a step updates the outputs and reports OK, no event, no termination, no early return and current point plus step size as the last successful time |
| JavaFmi3Model.Model.UpdateDiscreteStates | assets/java/src/fmi3/java/Model.java:325-338 | only the clocked outputs change, and the next event time is defined as 1.0 |
| JavaFmi3Model.Model.EnterInitializationMode | assets/java/src/fmi3/java/Model.java:591-594 | enters InitializationMode and changes no field |
| JavaFmi3Model.Model.ExitInitializationMode | assets/java/src/fmi3/java/Model.java:596-604 | enters EventMode or StepMode as event mode is used or not, and updates the outputs |
| JavaFmi3Model.Model.EnterEventMode | assets/java/src/fmi3/java/Model.java:606-609 | enters EventMode and changes no field |
| JavaFmi3Model.Model.EnterStepMode | assets/java/src/fmi3/java/Model.java:611-614 | enters StepMode and changes no field |
| JavaFmi3Model.Model.EnterConfigurationMode | assets/java/src/fmi3/java/Model.java:616-627 | enters ConfigurationMode from Instantiated and ReconfigurationMode from anywhere else, or returns Error without a structural parameter |
| JavaFmi3Model.Model.ExitConfigurationMode | assets/java/src/fmi3/java/Model.java:629-640 | leaves ConfigurationMode for Instantiated and ReconfigurationMode for StepMode; from any other mode it returns Error and stays |
| JavaFmi3Model.Model.Reset | assets/java/src/fmi3/java/Model.java:642-727 | reset returns to Instantiated with the initial fields and clock maps |
| JavaFmi3Model.Model.Terminate | assets/java/src/fmi3/java/Model.java:729-732 | enters Terminated and changes no field |
| JavaFmi3Model.Model.SetValue | assets/java/src/fmi3/java/Model.java:342-406 | every typed setter writes and logs as `SetFrom` says, keeping the fields well typed |
| JavaFmi3Model.Model.SetClock | assets/java/src/fmi3/java/Model.java:408-413 | the clocks are written as `SetFrom` says, and clock_c is then recomputed unless the write raised |
| JavaFmi3Model.Model.GetValue | assets/java/src/fmi3/java/Model.java:463-532 | every typed getter returns and logs as `GetFrom` says and changes no field |
| JavaFmi3Model.Model.SetIntervalDecimal | assets/java/src/fmi3/java/Model.java:415-424 | the zipped intervals are stored, the status is OK, and nothing else changes |
| JavaFmi3Model.Model.SetIntervalFraction | assets/java/src/fmi3/java/Model.java:426-436 | each counter divided by its resolution is stored as an interval |
| JavaFmi3Model.Model.SetShiftDecimal | assets/java/src/fmi3/java/Model.java:438-447 | the zipped shifts are stored, the status is OK, and nothing else changes |
| JavaFmi3Model.Model.SetShiftFraction | assets/java/src/fmi3/java/Model.java:449-459 | each counter divided by its resolution is stored as a shift |
| JavaFmi3Model.Model.GetIntervalDecimal | assets/java/src/fmi3/java/Model.java:534-544 | one entry per reference, the stored interval or null, each with qualifier 2 |
| JavaFmi3Model.Model.GetShiftDecimal | assets/java/src/fmi3/java/Model.java:563-572 | one entry per reference, the stored shift or null |
| JavaFmi3Model.Model.GetIntervalFraction | assets/java/src/fmi3/java/Model.java:546-561 | succeeds exactly when every reference's interval converts, and then returns its numerator and denominator with qualifier 2 |
| JavaFmi3Model.Model.GetShiftFraction | assets/java/src/fmi3/java/Model.java:574-589 | succeeds exactly when every reference's shift converts, and then returns its numerator and denominator |
| JavaFmi3Model.Model.Serialize | assets/java/src/fmi3/java/Model.java:736-744 | serializing returns OK and an image of the mode, the fields and both clock maps |
| JavaFmi3Model.Model.Deserialize | assets/java/src/fmi3/java/Model.java:746-824 | deserializing installs `Restored` of the image and returns OK |
| Logging.UntilNul | fmiapi/src/fmi3/fmi3_logger.rs:70-73 | `CStr::from_bytes_until_nul` keeps the text before the first NUL |
| Logging.UntilNulNoNul | fmiapi/src/fmi3/fmi3_logger.rs:75-78 | a message without a NUL reaches the importer whole |
| Logging.Logger.constructor | fmiapi/src/fmi3/fmi3_logger.rs:29-45 | a new logger enables every category when logging is on and none when it is off, and has delivered nothing |
| Logging.Logger.Emitted | fmiapi/src/fmi3/fmi3_logger.rs:53-85 | a log event reaches the importer's callback exactly when its category is enabled, once, with its status, the environment and instance name passed through, and category and message cut at a NUL |
| Logging.Logger.Log | fmiapi/src/fmi3/fmi3_logger.rs:53-85 | logging appends what `Emitted` says to the callback's deliveries and leaves the filter alone |
| Logging.Logger.LogAt | fmiapi/src/common/logger/mod.rs:33-52 | `ok`, `warning`, `error` and `fatal` log with the status and category of their level |
| Logging.Logger.CommunicatePortConnectionAction | fmiapi/src/common/logger/mod.rs:56-66 | the port instruction is logged as Ok under the UniFMU category and ends with the port |
| Logging.Logger.EnableCategories | fmiapi/src/common/logger/mod.rs:70-77 | afterwards a category is enabled iff it was listed or enabled before; nothing is delivered |
| Logging.Logger.DisableCategories | fmiapi/src/common/logger/mod.rs:81-88 | afterwards a category is enabled iff it was not listed and was enabled before; nothing is delivered |
| Logging.Logger.EnableAllCategories | fmiapi/src/common/logger/mod.rs:91-93 | afterwards every category is enabled |
| Logging.Logger.DisableAllCategoriesAsWritten | fmiapi/src/common/logger/mod.rs:96-98 | as written, "disable all" installs an empty blacklist, so afterwards every category is enabled |
| Logging.Logger.DisableAllCategories | fmiapi/src/common/logger/mod.rs:95-98 | corrected: afterwards no category is enabled |
| Logging.PortMessage | fmiapi/src/common/logger/mod.rs:60-64 | the port instruction ends with the port text |
| Fmi2Logging.NewFmi2Logger | fmiapi/src/fmi2/fmi2_logger.rs:34-54 | the FMI 2.0 logger enables all categories or none, passes the instance name, and names categories by their FMI 2.0 names |
| Fmi3Logging.NewFmi3Logger | fmiapi/src/fmi3/fmi3_logger.rs:29-45 | the FMI 3.0 logger enables all categories or none, has no instance name, and maps levels to FMI 3.0 statuses and categories |
| BackendLoops.HandshakeValue | assets/python/fmi3/backend.py:56-58 | the handshake status a backend sends decodes back to that status on the API side |
| BackendLoops.HandshakeAccepted | assets/python/fmi3/backend.py:56-58 | the Ok handshake every backend sends is accepted by the API layer's handshake wait |
| BackendLoops.Logs | assets/python/fmi3/abstract_backend.py:49-58 | each logged event is sent as one log reply, in order |
| BackendLoops.Callbacks | assets/python/fmi3/abstract_backend.py:49-66 | each log reply waits for one command; the callbacks either all continue, or stop at the first unanswered or refused one |
| BackendLoops.CallbacksContinued | assets/python/fmi3/abstract_backend.py:60-64 | when every answer is a continue command, every event is sent and one command consumed per event |
| BackendLoops.CallbackRefused | assets/python/fmi3/abstract_backend.py:60-66 | a command other than continue after the k-th log ends the process with the refusal code after k + 1 log replies |
| BackendLoops.Step | assets/python/fmi3/backend.py:61-125 | handling one command consumes at least that command and no more than were received |
| BackendLoops.Then | assets/python/fmi3/backend.py:125 | the messages of a run follow the ones already sent, and its ending and state are kept |
| BackendLoops.ThenAppend | assets/python/fmi3/backend.py:125 | sending messages in two parts is the same as sending them at once |
| BackendLoops.HandshakeFirst | assets/python/fmi3/backend.py:56-61 | the first message of every session is the Ok handshake |
| BackendLoops.OneReplyPerCommand | assets/python/fmi3/backend.py:61-125 | when every command is answered with no logs, the loop sends exactly one reply per command, each of the family the command expects, and keeps waiting |
| BackendLoops.ServedReply | assets/python/fmi3/backend.py:61-125 | a command answered with one reply sends it and then serves the rest from the new state |
| BackendLoops.ExitEndsRun | assets/python/fmi3/backend.py:115-118 | a command that exits ends the run, after its reply when it has one, and nothing after it is received |
| BackendLoops.IgnoredCommand | assets/python/fmi3/backend.py:61-125 | an ignored command sends nothing and the loop goes on from the handler's new state |
| BackendLoops.LoggedThenReplied | assets/python/fmi3/abstract_backend.py:49-66 | a command whose handling logs sends the log replies, consumes one continue per log, then sends its reply |
| BackendLoops.Serve | assets/python/fmi3/backend.py:61-125 | the receive loop produces the messages, ending and state `Session` gives |
| FmuVariants.EnabledLists | unifmu_macros/src/lib.rs:125-142 | each list holds exactly the enabled values, each once, in declaration order |
| FmuVariants.ForBackendsMembers | unifmu_macros/src/lib.rs:154-168 | the innermost loop yields exactly the allowed backends for its version, language and packaging, without repeats |
| FmuVariants.ForPackagingsMembers | unifmu_macros/src/lib.rs:153-169 | the packaging loop yields exactly the allowed pairs of packaging and backend, without repeats |
| FmuVariants.ForLanguagesMembers | unifmu_macros/src/lib.rs:152-170 | the language loop yields exactly the allowed triples, without repeats |
| FmuVariants.ForVersionsMembers | unifmu_macros/src/lib.rs:151-171 | the four nested loops yield exactly the allowed combinations of the lists, without repeats |
| FmuVariants.VariationsMembers | unifmu_macros/src/lib.rs:125-174 | `get_variations` yields exactly the enabled, allowed variants, each once |
| FmuVariants.BlackboxOnlyPythonBare | unifmu_macros/src/lib.rs:155-163 | a blackbox variant is always a Python FMU in a bare directory |
| FmuVariants.GetVariations | unifmu_macros/src/lib.rs:125-174 | the loop builds exactly the list `Variations` describes |
| FmuVariants.PushLanguages | unifmu_macros/src/lib.rs:152-170 | one pass of the language loop appends that language's variants |
| FmuVariants.PushPackagings | unifmu_macros/src/lib.rs:153-169 | one pass of the packaging loop appends that packaging's variants |
| FmuVariants.PushBackends | unifmu_macros/src/lib.rs:154-168 | the backend loop appends the allowed backends in order |
| FmuVariants.AllBackendsCount | unifmu_macros/src/lib.rs:154-168 | with every backend enabled, Python in a bare directory gets three variants and every other pair two |
| FmuVariants.AllPackagingsCount | unifmu_macros/src/lib.rs:153-169 | with everything enabled, Python gets five variants per version and the other languages four |
| FmuVariants.AllLanguagesCount | unifmu_macros/src/lib.rs:152-170 | with everything enabled, each FMI version gets thirteen variants |
| FmuVariants.AllEnabledCount | unifmu_macros/src/lib.rs:110-123 | `for_each_fmu` generates 26 test functions |
| FmuVariants.FunctionSuffixInjective | unifmu_macros/src/lib.rs:84-91 | different variants get different function-name suffixes |
| FmuVariants.GeneratedNames | unifmu_macros/src/lib.rs:184-204 | one generated name per variant, each starting with the original function's name |
| FmuVariants.GeneratedNamesDistinct | unifmu_macros/src/lib.rs:184-204 | the generated functions have distinct names |
| LaunchConfigs.FromFields | fmiapi/src/common/spawn/launch_config.rs:13-28 | a missing location defaults to local, and the three command lists are kept as given |
| LaunchConfigs.GetLaunchCommand | fmiapi/src/common/spawn/launch_config.rs:54-66 | the command for Windows, macOS or Linux is returned when the file has one for that system, and otherwise the unsupported-OS error naming it |
| LaunchConfigs.CommandIgnoresLocation | fmiapi/src/common/spawn/launch_config.rs:54-66 | the choice of command does not depend on the backend location |
| LaunchConfigs.Create | fmiapi/src/common/spawn/launch_config.rs:34-50 | a missing file is NotFound, a failed read is Unreadable, text that does not parse is Invalid, and otherwise the parsed configuration is returned |
| LegacyCalls.CommandSocket.constructor | wrapper/src/lib.rs:70-77 | a new socket has sent nothing |
| LegacyCalls.CommandSocket.Execute | wrapper/src/lib.rs:119-151 | the command is sent unless sending fails, and the decoded answer is returned exactly when there is one |
| LegacyCalls.CommandSocket.ExecuteStatus | wrapper/src/lib.rs:109-117 | the backend's status is passed on as it is, and a failed exchange answers Error |
| LegacyCalls.WrapperCode | wrapper/src/lib.rs:158-182 | every command has a function code from 0 to 16 |
| LegacyCalls.SocketCode | src/lib.rs:117-129 | the older library's commands have codes from 0 to 9 |
| LegacyCalls.WrapperCodesDistinguish | wrapper/src/lib.rs:158-182 | commands with the same code are of the same kind, except the setters, which share code 7 |
| LegacyCalls.IntsToBoolsStrict | wrapper/src/lib.rs:651-662 | a C integer reads as true exactly when it is 1 |
| LegacyCalls.StrictAgreesOnFmiBooleans | wrapper/src/lib.rs:651-662 | on 0 and 1 the strict reading agrees with the newer library's, and on any other value it disagrees |
| LegacyCalls.StrictBoolsRoundTrip | wrapper/src/lib.rs:651-662 | a boolean written as a C integer reads back as itself |
| LegacyCalls.FlagAsWritten | wrapper/src/lib.rs:345-368 | as written, the logging and no-set-prior flags are sent as "the C flag is 0", the negation of their meaning, in this library and in the older one (src/lib.rs:302-318 and :383-395) |
| LegacyCalls.FlagAsWrittenInverts | wrapper/src/lib.rs:360-367 | fmi2True arrives at the backend as false and fmi2False as true |
| LegacyCalls.Flag | fmiapi/src/fmi2.rs:311-328 | the corrected flag is true exactly when the C flag is not zero |
| LegacyCalls.FlagRoundTrip | wrapper/src/lib.rs:445-464 | a boolean passed as a C flag reads back as itself through `Flag` and as its negation as written |
| LegacyCalls.SetupExperimentCommand | wrapper/src/lib.rs:371-408 | the tolerance and stop time are sent exactly when their flags are not zero |
| ProtobufCompat.OrDefault | wrapper/rpc/src/protobuf_compatability.rs:206-207 | an absent stop time or tolerance is written as the protobuf default |
| ProtobufCompat.ReturnToOneof | wrapper/rpc/src/protobuf_compatability.rs:6-46 | every hand-written return converts to a protobuf result that converts back to it |
| ProtobufCompat.ReturnOneofRoundTrip | wrapper/rpc/src/protobuf_compatability.rs:6-88 | every protobuf result converts to a return that converts back to it |
| ProtobufCompat.ReturnFromProto | wrapper/rpc/src/protobuf_compatability.rs:48-50 | a return message converts exactly when its result is set; an unset one panics in `unwrap` |
| ProtobufCompat.ReturnToProto | wrapper/rpc/src/protobuf_compatability.rs:90-96 | the message built from a return has its result set and converts back to it |
| ProtobufCompat.ReturnProtoRoundTrip | wrapper/rpc/src/protobuf_compatability.rs:48-96 | a message with its result set survives converting to a return and back |
| ProtobufCompat.CommandToOneof | wrapper/rpc/src/protobuf_compatability.rs:171-277 | every command converts to a canonical protobuf command that converts back to it; an absent stop time or tolerance is sent as the default with its `has_` flag clear |
| ProtobufCompat.CommandOneofRoundTrip | wrapper/rpc/src/protobuf_compatability.rs:98-277 | a protobuf command survives the trip through the hand-written enum exactly when it is canonical, that is, when every value behind a clear `has_` flag is the default |
| ProtobufCompat.CommandFromProto | wrapper/rpc/src/protobuf_compatability.rs:98-100 | a command message converts exactly when its command is set |
| ProtobufCompat.CommandToProto | wrapper/rpc/src/protobuf_compatability.rs:279-284 | the message built from a command is set, canonical, and converts back to it |
| SerializationWrapper.WrapperSlave.constructor | wrapper/src/lib.rs:70-77 | a new slave has an empty string buffer and no stored states |
| SerializationWrapper.WrapperSlave.InsertNext | wrapper/src/lib.rs:93-104 | the state is stored under the smallest free handle below `i32::MAX`, and when there is none the buffer is unchanged and the error is returned |
| SerializationWrapper.WrapperSlave.GetFmuState | wrapper/src/lib.rs:763-801 | the serialized state overwrites the entry of an existing handle or is stored under a new one; a failed exchange or a full buffer answers Fatal and changes nothing |
| SerializationWrapper.WrapperSlave.SetFmuState | wrapper/src/lib.rs:736-760 | an unknown handle answers Fatal without sending; otherwise the stored bytes are sent for deserialization |
| SerializationWrapper.WrapperSlave.FreeFmuState | wrapper/src/lib.rs:804-833 | a null state is ignored, a known handle is removed and cleared, and an unknown one answers Fatal and changes nothing |
| SerializationWrapper.WrapperSlave.SerializeFmuState | wrapper/src/lib.rs:836-859 | the stored bytes of a known handle are copied out, whether or not they fit the given size, and an unknown handle answers Fatal |
| SerializationWrapper.WrapperSlave.DeserializeFmuState | wrapper/src/lib.rs:862-889 | the bytes are stored under a new handle, and a full buffer answers Fatal |
| SerializationWrapper.WrapperSlave.SerializedFmuStateSize | wrapper/src/lib.rs:892-920 | a known handle answers its byte count, and an unknown one Fatal |
| SerializationWrapper.WrapperSlave.DeserializeThenSerialize | wrapper/src/lib.rs:836-920 | bytes stored by deserializing are serialized back unchanged, with their length as size |
| SerializationWrapper.WrapperSlave.SetBoolean | wrapper/src/lib.rs:651-670 | the values are sent as booleans that are true only for 1 |
| SerializationWrapper.WrapperSlave.GetBoolean | wrapper/src/lib.rs:525-558 | the first `nvr` booleans are written as 1 or 0 with OK; a short answer panics after writing what it has, and a failed exchange writes nothing; both answer Error |
| SerializationWrapper.WrapperSlave.SetDebugLogging | wrapper/src/lib.rs:345-368 | as written: the categories are sent with the flag inverted, so logging on reaches the backend as off and off as on; a failed exchange answers Error |
| SerializationWrapper.WrapperSlave.SetDebugLoggingCorrected | wrapper/src/lib.rs:345-368 | corrected: the categories and the flag are sent as the importer meant them |
| SerializationWrapper.WrapperSlave.DoStep | wrapper/src/lib.rs:445-464 | as written: the step is sent with the no-set-prior flag inverted, so fmi2True reaches the backend as false; a failed exchange answers Error |
| SerializationWrapper.WrapperSlave.DoStepCorrected | wrapper/src/lib.rs:445-464 | corrected: the step is sent with the no-set-prior flag as the importer meant it |
| SocketWrapper.SlaveRegistry.constructor | src/lib.rs:46-58 | the registry starts with no sockets and no processes |
| SocketWrapper.SlaveRegistry.Register | src/lib.rs:264-272 | a new slave gets the smallest free handle, under which its socket and process are stored |
| SocketWrapper.SlaveRegistry.FreeInstance | src/lib.rs:283-300 | free-instance is sent, and the slave's process and socket are removed when the process is registered |
| SocketWrapper.RangeWithin | src/lib.rs:266-269 | when every handle below n is taken, at least n handles are registered, so the search for a free handle ends |
| SocketWrapper.StubStatus | src/lib.rs:637-757 | each unimplemented function returns Error |
| Narrowing.Cast | fmiapi/src/fmi3/mod.rs:718 | `v as t` lies in the range of `t` and is congruent to `v` modulo 2^bits |
| Narrowing.CastKeepsInRange | fmiapi/src/fmi3/mod.rs:802 | a value already in range is unchanged by the cast |
| Narrowing.CastIdempotent | fmiapi/src/fmi3/mod.rs:886 | casting twice is casting once |
| Narrowing.CastCongruent | fmiapi/src/fmi3/mod.rs:970 | two values cast alike exactly when they agree modulo 2^bits |
| Narrowing.CastAll | fmiapi/src/fmi3_dispatcher.rs:206 | the mapped cast of a value list keeps its length and casts each element |
| PythonOps.Or | assets/python/fmi3/model.py:480 | `a or b` is truthy exactly when one operand is, and is one of the operands |
| PythonOps.And | assets/python/fmi3/model.py:485 | `a and b` is truthy exactly when both operands are, and is one of the operands |
| PythonOps.BooleanOperators | assets/python/fmi3/model.py:480 | on two booleans `or` and `and` are the boolean operations |
| PythonOps.Add | assets/python/fmi3/model.py:470-479 | `+` raises only `TypeError`; two integers add without bound; two strings concatenate |
| PythonOps.XorBytes | assets/python/fmi3/model.py:482 | the XOR comprehension raises only `TypeError`; on two byte strings it is the byte-wise XOR over the shorter length |
| Outputs.Xor | assets/csharp/fmi3/model.cs:766-772 | the XOR array has the shorter length and each byte is the XOR of the inputs' bytes |
| Outputs.Wrap | assets/csharp/fmi3/model.cs:759-762 | an unchecked 32- or 64-bit sum lands in the type's range and keeps a value already in range |
| Outputs.WrapIsCast | assets/java/src/fmi3/java/Model.java:943-946 | wrapping at 32 or 64 bits is the two's complement cast to that width |
| Outputs.AddInt | assets/csharp/fmi3/model.cs:759 | the `int` sum is a 32-bit value, the true sum when that fits |
| Outputs.AddUInt | assets/csharp/fmi3/model.cs:760 | the `uint` sum is an unsigned 32-bit value, the true sum when that fits |
| Outputs.AddLong | assets/csharp/fmi3/model.cs:761 | the `long` sum is a 64-bit value, the true sum when that fits |
| Outputs.AddULong | assets/csharp/fmi3/model.cs:762 | the `ulong` sum is an unsigned 64-bit value, the true sum when that fits |
| Outputs.Combine | assets/java/src/fmi3/java/Model.java:935-956 | the output computed from two inputs of one type has that type and is representable in it |
| CsharpValues.WriteSingles | assets/csharp/fmi3/model.cs:689-694 | a `float[]` is written as four bytes per element |
| CsharpValues.ReadSingles | assets/csharp/fmi3/model.cs:733-739 | reading n singles yields n of them, or `EndOfStreamException` when the stream ends first |
| CsharpValues.Decode | assets/csharp/fmi3/model.cs:713-745 | a value read for a property type has that type and is representable in it |
| CsharpValues.SinglesRoundTrip | assets/csharp/fmi3/model.cs:689-694 | written singles read back |
| CsharpValues.BinaryRoundTrip | assets/csharp/fmi3/model.cs:686-688 | a written `byte[]` (length, then bytes) reads back |
| CsharpValues.ArrayRoundTrip | assets/csharp/fmi3/model.cs:689-694 | a written `float[]` (length, then elements) reads back |
| CsharpValues.ValueRoundTrip | assets/csharp/fmi3/model.cs:660-748 | every representable property value that `BinaryWriter` writes without raising reads back as itself from the state image |
| CsharpValues.Assign | assets/csharp/fmi3/model.cs:817 | `PropertyInfo.SetValue` stores a value as the property's type: unchanged when the types agree, the same integer in a wider integer type, and the runtime's conversion for a `float` or `double` property; representable values stay representable |
| PythonFmi2Backend.RouteAnswersAwaited | assets/python/fmi2/backend.py:96-217 | every command the dispatcher sends, the debug-logging switch included, is routed to the message it decodes, except the cancel command and the three derivative commands; free-instance is answered and ends the process with 0 |
| PythonFmi2Backend.RouteExits | assets/python/fmi2/backend.py:219-220 | the process ends with -1 exactly for the cancel command, the derivative commands and a stray callback acknowledgement; only an unset command raises |
| PythonFmi2Backend.RecvCommand | assets/python/fmi2/backend.py:48-56 | a command yields its group and payload exactly when its oneof is set; an unset one raises TypeError |
| PythonFmi2Backend.SetupArgumentsPython | assets/python/fmi2/backend.py:121-126 | the model is called with the start time and the stop time and tolerance fields as read, present or not |
| PythonFmi2Backend.SetupPresenceLost | assets/python/fmi2/backend.py:121-126 | this loop passes a missing stop time and tolerance exactly as it passes 0, where the C# and Java loops pass null |
| PythonFmi2Backend.KeywordAsWritten | assets/python/fmi2/backend.py:99-103 | the keywords the loop builds replies with are the message type names |
| PythonFmi2Backend.Keyword | assets/python/fmi2/abstract_backend.py:40-58 | corrected keywords: the field names of Fmi2Return, which the schema has for every reply this loop sends |
| PythonFmi2Backend.Sending | assets/python/fmi2/backend.py:58-103 | building the messages keeps the next state and either sends the handling's logs and reply unchanged or raises ValueError; a log event under a keyword the schema lacks raises before anything is sent |
| PythonFmi2Backend.KeywordsAsWrittenRejected | assets/python/fmi2/backend.py:61-75 | no keyword the loop builds a reply or a log message with names a field of Fmi2Return |
| PythonFmi2Backend.SendingAsWrittenCrashes | assets/python/fmi2/backend.py:61-103 | as written, any handling that logs or replies ends in ValueError instead |
| PythonFmi2Backend.SendingUnchanged | assets/python/fmi2/abstract_backend.py:40-58 | with the field names, every reply and log event the loop produces is sent as produced |
| PythonFmi2Backend.InstantiateCrashesAsWritten | assets/python/fmi2/backend.py:97-103 | as written, the backend sends the handshake and then dies with ValueError on the instantiation, before any reply |
| PythonFmi2Backend.SessionAnswered | assets/python/fmi2/backend.py:43-217 | with the field names, a session that instantiates and then sends answered commands whose model calls return without logging gets the Ok handshake and one decodable reply per command, in order |
| PythonFmi2Backend.CancelStepEndsProcess | assets/python/fmi2/backend.py:219-220 | with the field names (corrected keywords), the cancel command, for which the dispatcher awaits a status, ends the process with -1 and no reply |
| PythonFmi2Backend.FreeInstanceRepliesThenExits | assets/python/fmi2/backend.py:134-141 | with the field names (corrected keywords), free-instance sends exactly the FreeInstance reply and ends the process with 0; nothing after it is read |
| PythonFmi2Backend.LogRefusedEndsProcess | assets/python/fmi2/backend.py:70-87 | with the field names (corrected keywords), a command other than continue after a log reply ends the process with -1 after that one log reply |
| PythonFmi2Backend.StatusReply | assets/python/fmi2/abstract_backend.py:40-47 | the abstract backend's status reply uses a field the schema has and carries exactly the given status |
| PythonFmi3Backend.RouteAnswersAwaited | assets/python/fmi3/backend.py:72-279 | every command the API layer sends and waits on, the debug-logging switch excepted, is routed to the reply it waits for, and free-instance ends the process with 0 |
| PythonFmi3Backend.RouteExits | assets/python/fmi3/backend.py:280-282 | the process ends with -1 exactly for the debug-logging switch, the callback acknowledgement and the derivative getters; only an unset command raises; only the model-exchange and scheduled-execution instantiations are acknowledged without a model |
| PythonFmi3Backend.Handle | assets/python/fmi3/backend.py:66-87 | an unset command raises TypeError; the co-simulation instantiation binds the model and replies Empty; model exchange replies Empty and keeps the model; a model call before `model` is bound raises NameError |
| PythonFmi3Backend.SessionAnswered | assets/python/fmi3/backend.py:56-286 | a session that instantiates and then sends awaited commands whose model calls return gets the Ok handshake and one reply per command, each of the variant the API layer waits for |
| PythonFmi3Backend.DebugLoggingEndsProcess | assets/python/fmi3/backend.py:280-282 | the debug-logging switch, for which the API layer awaits a status, ends the process with -1 and no reply |
| PythonFmi3Backend.LengthDelimited | assets/python/fmi3/abstract_backend.py:40-47 | a wrapped field is longer than its body |
| PythonFmi3Backend.ReadField | fmiapi/src/fmi3/fmi3_slave.rs:77-80 | a field read from a message leaves a body and a rest that together are shorter than the message |
| PythonFmi3Backend.LengthDelimitedRoundTrip | assets/python/fmi3/abstract_backend.py:40-47 | a length-delimited field written and read back gives its number, its body and the bytes after it |
| PythonFmi3Backend.ReadReturn | fmiapi/src/fmi3/fmi3_slave.rs:77-80 | a return message has no variant set exactly when it is empty |
| PythonFmi3Backend.AsReceived | fmiapi/src/fmi3/fmi3_slave.rs:77-98 | an unset return message is received as a success with nothing set, a read one as its variant and body, and an unreadable one is not received |
| PythonFmi3Backend.StatusBody | assets/python/fmi3/backend.py:285-286 | a serialized status return is empty exactly when the status is OK |
| PythonFmi3Backend.SentAsWritten | assets/python/fmi3/backend.py:285-286 | as written, the loop sends the branch's own message without the Fmi3Return around it |
| PythonFmi3Backend.Sent | assets/python/fmi3/abstract_backend.py:40-47 | corrected send: the reply wrapped in the Fmi3Return field of its variant, never empty |
| PythonFmi3Backend.BareRepliesRejected | fmiapi/src/fmi3/fmi3_slave.rs:77-80 | as written, the Empty reply to the instantiation and every OK status reply read back as no return message set, and dispatch fails with ReturnError whatever the numbering |
| PythonFmi3Backend.WrappedRepliesAccepted | fmiapi/src/fmi3/fmi3_slave.rs:77-98 | wrapped, any reply reads back as its own variant with its body, and dispatch returns that body for the variant it expects |
| PythonFmi3Backend.RecvCommand | assets/python/fmi3/abstract_backend.py:30-38 | a command yields its group and payload exactly when its oneof is set; an unset one raises TypeError |
| PythonFmi3Backend.StatusReply | assets/python/fmi3/abstract_backend.py:40-47 | the status reply is the status variant carrying exactly the given status |
| PythonFmi3Backend.LogCallbackContinues | assets/python/fmi3/abstract_backend.py:49-66 | the log reply is sent first; the callback returns exactly when the next command is the acknowledgement, otherwise the process ends with the refusal code |
| PythonFmi3Backend.HandshakeReply | assets/python/fmi3/abstract_backend.py:68-69 | the handshake a backend sends is accepted by the API layer's handshake wait |
| PythonFmi3Model.OutputRefs | assets/python/fmi3/model.py:25-67 | the output references are exactly the third of each a/b/c triple, 2, 5, ..., 38 |
| PythonFmi3Model.ResetValues | assets/python/fmi3/model.py:149-191 | `fmi3Reset` assigns exactly the inputs, the tunable parameters and clocks a and b |
| PythonFmi3Model.Triple | assets/python/fmi3/model.py:25-67 | the triple of index k is two state fields and one output |
| PythonFmi3Model.OutputOf | assets/python/fmi3/model.py:469-482 | computing one output can fail only with `TypeError`, when the two operands do not combine |
| PythonFmi3Model.UpdateOutputs | assets/python/fmi3/model.py:469-482 | `_update_outputs` fails only with `TypeError`, and otherwise keeps every field present |
| PythonFmi3Model.UpdateOutputsValues | assets/python/fmi3/model.py:469-482 | each output becomes the combination of its two operands, and every other field keeps its value |
| PythonFmi3Model.OperandsKept | assets/python/fmi3/model.py:469-482 | updating the outputs does not change what any output is computed from |
| PythonFmi3Model.UpdateOutputsIdempotent | assets/python/fmi3/model.py:469-482 | `_update_outputs` is idempotent |
| PythonFmi3Model.TypedOutputs | assets/python/fmi3/model.py:469-482 | when every operand pair has matching types, `_update_outputs` does not raise |
| PythonFmi3Model.UpdateClocks | assets/python/fmi3/model.py:484-485 | clock_c becomes clock_a and clock_b, and every other field keeps its value |
| PythonFmi3Model.Refresh | assets/python/fmi3/model.py:193-197 | recomputing outputs and clocks keeps every field present when it returns |
| PythonFmi3Model.AfterReset | assets/python/fmi3/model.py:149-198 | after a reset the fields are present and well typed, including clock_c and every output |
| PythonFmi3Model.Initial | assets/python/fmi3/model.py:5-95 | the constructed fields are present and well typed |
| PythonFmi3Model.ResetInputs | assets/python/fmi3/model.py:149-191 | a reset assigns every state field its reset value and leaves `time` (reference 999) as it was |
| PythonFmi3Model.AfterResetIs | assets/python/fmi3/model.py:149-198 | a reset is the reset assignments followed by the two updates, and the output update cannot fail |
| PythonFmi3Model.ResetOutputs | assets/python/fmi3/model.py:149-198 | after a reset the integer outputs are 0, boolean_c is false, string_c is empty and binary_c is the single byte 0 |
| PythonFmi3Model.ResetOperands | assets/python/fmi3/model.py:469-482 | operands at their reset values give the reset output values |
| PythonFmi3Model.ResetClock | assets/python/fmi3/model.py:149-198 | after a reset clock_c is false |
| PythonFmi3Model.Refused | assets/python/fmi3/model.py:449-459 | the pairs before the returned index name known references for the mode, and the one at it does not |
| PythonFmi3Model.WriteAttributes | assets/python/fmi3/model.py:449-459 | the write loop produces the outcome and fields `SetResult` gives: the writes before the first refused pair, then Ok, Error for a tunable parameter outside configuration mode, or `KeyError` |
| PythonFmi3Model.PartialBatch | assets/python/fmi3/model.py:453-456 | outside configuration mode a batch of a regular and then a tunable reference returns Error after writing the regular one |
| PythonFmi3Model.ConfigurationWritesAll | assets/python/fmi3/model.py:450-452 | in configuration mode a batch of known references is written in full and returns Ok |
| PythonFmi3Model.ReadBack | assets/python/fmi3/model.py:449-467 | in configuration mode the last value written under a reference is the one read back |
| PythonFmi3Model.StorePrefix | assets/python/fmi3/model.py:450-457 | `zip` stops at the shorter of references and values |
| PythonFmi3Model.ReadAttributes | assets/python/fmi3/model.py:461-467 | a read returns the fields in order exactly when every reference is readable, and otherwise raises `KeyError` for an unknown reference or `AttributeError` for a missing field at the first unreadable one |
| PythonFmi3Model.ReadIntervals | assets/python/fmi3/model.py:382-390 | the interval read returns the stored intervals in order exactly when each reference has one, and otherwise raises `KeyError` |
| PythonFmi3Model.StateOrder | assets/python/fmi3/model.py:202-245 | the pickled tuple has 41 entries |
| PythonFmi3Model.StateOrderFields | assets/python/fmi3/model.py:202-245 | the tuple holds every state field exactly once |
| PythonFmi3Model.Dump | assets/python/fmi3/model.py:200-247 | the serialized image has 41 entries |
| PythonFmi3Model.Load | assets/python/fmi3/model.py:249-334 | unpacking an image changes no field's presence |
| PythonFmi3Model.Restore | assets/python/fmi3/model.py:249-338 | deserialization keeps every field present, also when unpacking or the output update raises |
| PythonFmi3Model.LoadDump | assets/python/fmi3/model.py:200-334 | loading the image a model dumped gives back the same fields |
| PythonFmi3Model.LoadDumpField | assets/python/fmi3/model.py:200-334 | loading the model's own image gives every field its value |
| PythonFmi3Model.RestoreOwnImage | assets/python/fmi3/model.py:200-338 | deserializing a model's own image is the same as recomputing its outputs and clocks |
| PythonFmi3Model.Model.constructor | assets/python/fmi3/model.py:5-95 | a new model is outside configuration mode, holds the initial fields and an interval of 1.0 for reference 1001, and keeps the `event_mode_used` argument |
| PythonFmi3Model.Model.DoStep | assets/python/fmi3/model.py:97-116 | a step updates the outputs and reports Ok, no event, no termination, no early return and current point plus step size; a `TypeError` leaves the fields unchanged |
| PythonFmi3Model.Model.UpdateDiscreteStates | assets/python/fmi3/model.py:436-447 | returns Ok, no update needed, no termination, nothing changed and a next event time defined as 1.0 |
| PythonFmi3Model.Model.EnterMode | assets/python/fmi3/model.py:118-147 | entering initialization, event or step mode and terminating return Ok and change nothing |
| PythonFmi3Model.Model.ExitInitializationMode | assets/python/fmi3/model.py:128-130 | leaving initialization updates the outputs and returns Ok, or raises `TypeError` with the fields unchanged |
| PythonFmi3Model.Model.EnterConfigurationMode | assets/python/fmi3/model.py:138-140 | sets configuration mode and changes no field |
| PythonFmi3Model.Model.ExitConfigurationMode | assets/python/fmi3/model.py:142-144 | clears configuration mode and changes no field |
| PythonFmi3Model.Model.Reset | assets/python/fmi3/model.py:149-198 | reset leaves configuration mode, restores the interval map and gives the fields `AfterReset` |
| PythonFmi3Model.Model.SetValue | assets/python/fmi3/model.py:392-429 | every typed setter writes and returns as `SetResult` says |
| PythonFmi3Model.Model.SetClock | assets/python/fmi3/model.py:431-434 | the clocks are written as `SetResult` says and clock_c recomputed when the write returned |
| PythonFmi3Model.Model.GetValue | assets/python/fmi3/model.py:340-380 | a read returns Ok and the fields in order exactly when every reference is readable, and otherwise raises `KeyError` or `AttributeError` |
| PythonFmi3Model.Model.GetIntervalDecimal | assets/python/fmi3/model.py:382-390 | returns every requested interval with qualifier 2 exactly when each is stored, and otherwise raises `KeyError` |
| PythonFmi3Model.Model.Serialize | assets/python/fmi3/model.py:200-247 | serializing returns Ok and the tuple of the state fields |
| PythonFmi3Model.Model.Deserialize | assets/python/fmi3/model.py:249-338 | deserializing changes the fields and outcome as `Restore` says |
| SlaveDispatch.LeadingLogs | fmiapi/src/fmi3/fmi3_slave.rs:82-95 | counts the log replies that precede the first reply that is not a log, all of which the loop consumes |
| SlaveDispatch.Conclude | fmiapi/src/fmi3/fmi3_slave.rs:97-98 | the final reply succeeds exactly when it is set and carries the awaited variant, a receive fault becomes a dispatch error, and anything else is `ReturnError` |
| SlaveDispatch.Dispatch | fmiapi/src/fmi3/fmi3_slave.rs:73-99 | with a send fault nothing changes and the fault is returned; otherwise the command and one callback-continue per leading log reply are sent, each log reply is passed to the logger, and the result is that of the first reply that is not a log |
| SlaveDispatch.AnswerLog | fmiapi/src/fmi3/fmi3_slave.rs:82-95 | one pass of the loop logs the event and sends exactly one callback-continue, consuming one reply |
| SlaveDispatch.AnswerLogs | fmiapi/src/fmi3/fmi3_slave.rs:82-95 | the loop ends after exactly `LeadingLogs` passes, having sent that many callback-continues and delivered those log events |
| SlaveDispatch.LeadingLogsExact | fmiapi/src/fmi3/fmi3_slave.rs:82 | a prefix of log replies followed by a reply that is not a log has exactly that length as its count |
| SlaveDispatch.DispatchResult | fmiapi/src/fmi2/fmi2_slave.rs:88-117 | a send fault is returned as a dispatch error, and success implies the send worked |
| SlaveDispatch.SentFor | fmiapi/src/fmi2/fmi2_slave.rs:88-117 | the command goes first, exactly when sending works, and everything after it is callback-continue |
| SlaveDispatch.FreeFailedMessage | fmiapi/src/fmi2/fmi2_slave.rs:144-146 | the error text logged when freeing fails is not empty |
| Fmi3Slaves.Fmi3Slave.constructor | fmiapi/src/fmi3/fmi3_slave.rs:51-59 | a new slave owns its dispatcher and logger with empty buffers and no last successful time |
| Fmi3Slaves.Fmi3Slave.Dispatch | fmiapi/src/fmi3/fmi3_slave.rs:73-99 | the FMI 3 slave dispatches as `SlaveDispatch.Dispatch` with `Fmi3CallbackContinue`, mapping log statuses and categories |
| Fmi3Slaves.Fmi3Slave.Drop | fmiapi/src/fmi3/fmi3_slave.rs:116-131 | dropping sends free-instance and logs OK, or, when sending fails, sends nothing and logs the error |
| Fmi2Slaves.Fmi2Slave.constructor | fmiapi/src/fmi2/fmi2_slave.rs:62-74 | a new slave has no string buffer, no last successful time, no pending message and no do-step status |
| Fmi2Slaves.Fmi2Slave.Dispatch | fmiapi/src/fmi2/fmi2_slave.rs:88-117 | the FMI 2 slave dispatches as `SlaveDispatch.Dispatch` with `Fmi2CallbackContinue` |
| Fmi2Slaves.Fmi2Slave.Drop | fmiapi/src/fmi2/fmi2_slave.rs:134-149 | dropping sends free-instance and logs OK, or, when sending fails, sends nothing and logs the error |
| Fmi2Slaves.Fmi2SlaveErrorText | fmiapi/src/fmi2/fmi2_slave.rs:160-170 | the return error, and only it, is shown as "unknown return message from backend" |
| StringConversion.CStrBytes | fmiapi/src/common/string_conversion.rs:13 | `CStr::from_ptr` takes the prefix of the memory up to, not including, the first NUL |
| StringConversion.SeqLen | fmiapi/src/common/string_conversion.rs:15 | the length of the UTF-8 sequence at the head of the bytes; 1 exactly for an ASCII byte |
| StringConversion.CodePoint | fmiapi/src/common/string_conversion.rs:15 | a well-formed UTF-8 sequence decodes to a Unicode scalar value (no surrogate, at most 0x10FFFF) |
| StringConversion.Decode | fmiapi/src/common/string_conversion.rs:15-18 | the decoded text has at most as many characters as there are bytes |
| StringConversion.EncodeCodePoint | fmiapi/src/common/string_conversion.rs:15 | encoding the code point of a well-formed sequence gives back that sequence |
| StringConversion.EncodeDecode | fmiapi/src/common/string_conversion.rs:15-18 | for valid UTF-8, encoding the decoded text gives back the bytes: the String holds exactly the C string's bytes |
| StringConversion.C2s | fmiapi/src/common/string_conversion.rs:9-20 | a null pointer is `NullError`; invalid UTF-8 is `Utf8ConversionError`; otherwise the result is the text whose UTF-8 bytes are those before the NUL; never `EmptyError` |
| StringConversion.C2NonEmptyS | fmiapi/src/common/string_conversion.rs:23-31 | errors of `c2s` pass through; an empty string is `EmptyError`, exactly when the first byte is the NUL; any success is non-empty |
| Fmi3Example.ExitConfigurationCases | assets/java/src/fmi3/java/Model.java:629-640 | leaving configuration returns OK exactly from ConfigurationMode, going to Instantiated, or ReconfigurationMode, going to StepMode; from any other mode it returns Error and stays |
| Fmi3Example.Ratios | assets/java/src/fmi3/java/Model.java:426-436 | one counter-over-resolution ratio per zipped counter and resolution |
| CsharpFmi2Tool.Indexed | tool/unifmu/resources/backends/csharp/fmi2.cs:71-86 | the indexer returns a property exactly when the class has one of that name, and otherwise throws `ArgumentException` |
| CsharpFmi2Tool.Unwritable | tool/unifmu/resources/backends/csharp/fmi2.cs:173-259 | the pairs before the returned index can be written, and the one at it cannot |
| CsharpFmi2Tool.Names | tool/unifmu/resources/backends/csharp/fmi2.cs:175 | each reference is mapped to its property name, in order |
| CsharpFmi2Tool.AssignedOk | tool/unifmu/resources/backends/csharp/fmi2.cs:173-259 | a typed setter returns OK exactly when every zipped pair has the setter's type in both value and property, and then writes them all |
| CsharpFmi2Tool.AssignedTypes | tool/unifmu/resources/backends/csharp/fmi2.cs:173-259 | a setter never changes the type of a property |
| CsharpFmi2Tool.StoredTypes | tool/unifmu/resources/backends/csharp/fmi2.cs:177-191 | the writes before the first refused pair keep every property's type |
| CsharpFmi2Tool.StoreStep | tool/unifmu/resources/backends/csharp/fmi2.cs:177-185 | each accepted pair writes its property on top of the earlier writes |
| CsharpFmi2Tool.SetThenRead | tool/unifmu/resources/backends/csharp/fmi2.cs:149-259 | after a setter returns OK, the indexer reads back the last value written under each name |
| CsharpFmi2Tool.MismatchWritesNothing | tool/unifmu/resources/backends/csharp/fmi2.cs:182-190 | a first pair whose property has another type makes the setter return Error with nothing written |
| CsharpFmi2Tool.StoppedAt | tool/unifmu/resources/backends/csharp/fmi2.cs:177-191 | the setter stops at the first pair it cannot write |
| CsharpFmi2Tool.WritePrefix | tool/unifmu/resources/backends/csharp/fmi2.cs:177-191 | the write loop writes exactly the pairs before the first refused one |
| CsharpFmi2Tool.WriteProperties | tool/unifmu/resources/backends/csharp/fmi2.cs:173-259 | a setter produces the outcome and properties `Assigned` gives |
| CsharpFmi2Tool.GatheredAsWritten | tool/unifmu/resources/backends/csharp/fmi2.cs:149-172 | as written, every getter throws `InvalidCastException`, since a sequence of boxed objects is cast to a sequence of the typed values |
| CsharpFmi2Tool.Unreadable | tool/unifmu/resources/backends/csharp/fmi2.cs:149-172 | the references before the returned index can be read with the getter's type, and the one at it cannot |
| CsharpFmi2Tool.Gathered | tool/unifmu/resources/backends/csharp/fmi2.cs:149-172 | the corrected getter returns each referenced property exactly when all can be read, and otherwise throws the error of the first that cannot |
| CsharpFmi2Tool.GetterCastRefused | tool/unifmu/resources/backends/csharp/fmi2.cs:149-172 | even a batch every reference of which is readable makes the getter as written throw, while the corrected one returns |
| CsharpFmi2Tool.AdderRead | tool/unifmu/resources/backends/csharp/fmi2.cs:149-154 | reading real_a of a one-variable adder returns its value when corrected and throws as written |
| CsharpFmi2Tool.Fmu.constructor | tool/unifmu/resources/backends/csharp/fmi2.cs:60-68 | the base class stores the reference table and the derived class's properties |
| CsharpFmi2Tool.Fmu.SetValues | tool/unifmu/resources/backends/csharp/fmi2.cs:173-259 | a typed setter changes outcome and properties as `Assigned` says |
| CsharpFmi2Tool.Fmu.GetValuesAsWritten | tool/unifmu/resources/backends/csharp/fmi2.cs:149-172 | as written, a typed getter throws `InvalidCastException` |
| CsharpFmi2Tool.Fmu.GetValues | tool/unifmu/resources/backends/csharp/fmi2.cs:149-172 | the corrected getter returns one value per reference, each the named property's value, exactly when every reference can be read |
| CsharpFmi2Tool.Fmu.Lifecycle | tool/unifmu/resources/backends/csharp/fmi2.cs:96-146 | the lifecycle operations return OK until overridden |
| CsharpFmi2Tool.Fmu.Unimplemented | tool/unifmu/resources/backends/csharp/fmi2.cs:266-311 | serialization, input derivatives, CancelStep and the status queries throw `NotImplementedException` until overridden |
| PythonFmi2Tool.LookupAll | tool/unifmu/resources/backends/python/fmi2.py:109 | every key is looked up, in order, and the lookup succeeds exactly when every key is present |
| PythonFmi2Tool.FirstReadOnly | tool/unifmu/resources/backends/python/fmi2.py:123-124 | the names before the returned index can be assigned, and the one at it is read-only |
| PythonFmi2Tool.Got | tool/unifmu/resources/backends/python/fmi2.py:105-115 | `get_xxx` raises only `RuntimeError` or `KeyError`, answers error with no values, or answers ok with the attributes the references name |
| PythonFmi2Tool.GotOk | tool/unifmu/resources/backends/python/fmi2.py:105-115 | `get_xxx` answers ok exactly when a table is given and every reference names an attribute, and then with their values in order |
| PythonFmi2Tool.UnknownReferenceRaises | tool/unifmu/resources/backends/python/fmi2.py:109 | a reference missing from the table raises `KeyError`, which the getter does not catch |
| PythonFmi2Tool.SetRaisesFirst | tool/unifmu/resources/backends/python/fmi2.py:122 | a reference missing from the table raises `KeyError` before any write |
| PythonFmi2Tool.SetThenGet | tool/unifmu/resources/backends/python/fmi2.py:105-128 | after a setter answers ok, the getter reads back the last value written under each reference |
| PythonFmi2Tool.ReadOnlyStops | tool/unifmu/resources/backends/python/fmi2.py:123-128 | a first pair naming a read-only attribute makes the setter answer error with nothing written |
| PythonFmi2Tool.WriteAttributes | tool/unifmu/resources/backends/python/fmi2.py:123-124 | the write loop writes exactly the pairs before the first read-only attribute |
| PythonFmi2Tool.Fmu.constructor | tool/unifmu/resources/backends/python/fmi2.py:59-66 | the base class stores the reference table, which may be absent |
| PythonFmi2Tool.Fmu.GetValues | tool/unifmu/resources/backends/python/fmi2.py:105-115 | the getter answers ok and one value per reference exactly when a table is given and every reference names an attribute |
| PythonFmi2Tool.Fmu.SetValues | tool/unifmu/resources/backends/python/fmi2.py:117-128 | the setter changes outcome and attributes as `SetResult` says |
| PythonFmi2Tool.Fmu.Lifecycle | tool/unifmu/resources/backends/python/fmi2.py:69-102 | the lifecycle operations and `do_step` return ok until overridden |
| PythonFmi2Tool.Fmu.Unimplemented | tool/unifmu/resources/backends/python/fmi2.py:130-164 | serialization, derivatives, `cancel_step` and the status query raise `NotImplementedError` until overridden |
| PythonFmuLaunch.GetAll | tool/unifmu/resources/backends/python_fmu/launch.py:58-66 | the getter closure answers ok or (error, None), never raising |
| PythonFmuLaunch.GetAllOk | tool/unifmu/resources/backends/python_fmu/launch.py:58-66 | the getter closure answers ok exactly when every reference names an attribute, and then with their values in order |
| PythonFmuLaunch.SetAll | tool/unifmu/resources/backends/python_fmu/launch.py:68-77 | the setter closure answers ok or error, never raising |
| PythonFmuLaunch.SetAllUnknown | tool/unifmu/resources/backends/python_fmu/launch.py:71 | a reference missing from the table makes the setter answer error with nothing written |
| PythonFmuLaunch.SetAllThenGetAll | tool/unifmu/resources/backends/python_fmu/launch.py:58-77 | after the setter answers ok, the getter reads back the last value written under each reference |
| PythonFmuLaunch.CodeOf | tool/unifmu/resources/backends/python_fmu/launch.py:83-103 | every handler is bound to a code from 0 to 16 other than 2 |
| PythonFmuLaunch.CodeTable | tool/unifmu/resources/backends/python_fmu/launch.py:83-106 | codes 0, 1 and 3 to 16 are bound, each to exactly one handler, and code 2 is not bound to the slave |
| PythonFmuLaunch.Default | tool/unifmu/resources/backends/python_fmu/launch.py:85-102 | a slave that overrides nothing answers ok for the lifecycle commands and `do_step`, and raises `NotImplementedError` for the others |
| PythonFmuLaunch.Handled | tool/unifmu/resources/backends/python_fmu/launch.py:126-129 | a getter command answers values and changes nothing; a setter command answers a status; any other command answers or raises as the slave does |
| PythonFmuLaunch.Step | tool/unifmu/resources/backends/python_fmu/launch.py:118-134 | one command sends at most one reply; code 2 replies None and exits with 0; a bound command replies and the loop waits again; an unknown code is ignored |
| PythonFmuLaunch.Served | tool/unifmu/resources/backends/python_fmu/launch.py:118-134 | the loop sends at most one reply per command, and an exit is preceded by the None reply |
| PythonFmuLaunch.BoundCount | tool/unifmu/resources/backends/python_fmu/launch.py:126 | the number of bound commands in a run is at most its length |
| PythonFmuLaunch.OneReplyPerBoundCommand | tool/unifmu/resources/backends/python_fmu/launch.py:118-134 | while the loop keeps waiting, it has sent exactly one reply per bound command |
| PythonFmuLaunch.GetterReplies | tool/unifmu/resources/backends/python_fmu/launch.py:126-129 | a getter command is answered with the getter closure's status and values |
| PythonFmuLaunch.UnimplementedRaises | tool/unifmu/resources/backends/python_fmu/launch.py:122-129 | `serialize` on a slave that does not override it raises `NotImplementedError` and ends the loop with no reply |
| PythonFmuLaunch.Serve | tool/unifmu/resources/backends/python_fmu/launch.py:118-134 | the receive loop produces the replies, ending and attributes `Served` gives |
| PythonFmuLaunch.Then | tool/unifmu/resources/backends/python_fmu/launch.py:129 | replies sent before a run precede its replies, and the ending and attributes are the run's |
| PythonFmuLaunch.ThenAppend | tool/unifmu/resources/backends/python_fmu/launch.py:129 | sending replies in two parts is the same as sending them at once |
| Fmi2Types.StatusValue | fmiapi/src/fmi2/fmi2_types.rs:21-30 | the FMI 2.0 status discriminants lie in 0..5 |
| Fmi2Types.StatusFromValue | fmiapi/src/fmi2/fmi2_types.rs:21-30 | `try_from` succeeds exactly for 0..5 and inverts the discriminant |
| Fmi2Types.StrName | fmiapi/src/fmi2/fmi2_types.rs:77-92 | a predefined category is named by one of the predefined names, a user-defined one by its own name |
| Fmi2Types.FromStr | fmiapi/src/fmi2/fmi2_types.rs:101-117 | a name converts to a category named by it; user-defined exactly when the name is not predefined |
| Fmi2Types.FromStrOfStrName | fmiapi/src/fmi2/fmi2_types.rs:77-117 | converting a category's name back gives the category, unless a user-defined category takes a predefined name |
| Fmi2Types.StatusKindFromValue | fmiapi/src/fmi2/fmi2_types.rs:147-154 | `Fmi2StatusKind::try_from` succeeds exactly for 0..3 and inverts the discriminant |
| Fmi3Types.StatusValue | fmiapi/src/fmi3/fmi3_types.rs:61-69 | the FMI 3.0 status discriminants lie in 0..4 |
| Fmi3Types.StatusFromValue | fmiapi/src/fmi3/fmi3_types.rs:61-69 | `try_from` succeeds exactly for 0..4 and inverts the discriminant |
| Fmi3Types.StatusValueRoundTrip | fmiapi/src/fmi3/fmi3_types.rs:61-69 | every status converts to its discriminant and back |
| Fmi3Types.IsFault | fmiapi/src/fmi3/fmi3_types.rs:71-75 | a status is a fault exactly when it is Discard, Error or Fatal |
| Fmi3Types.LevelStatus | fmiapi/src/fmi3/fmi3_types.rs:77-93 | the logger's level statuses are faults exactly for the error and fatal levels |
| Fmi3Types.FromProtoStatus | fmiapi/src/fmi3/fmi3_types.rs:123-134 | a protobuf status converts to the API status with the same number |
| Fmi3Types.FromProtoStatusMonotone | fmiapi/src/fmi3/fmi3_types.rs:123-134 | the conversion keeps the order of statuses and is injective |
| Fmi3Types.StrName | fmiapi/src/fmi3/fmi3_types.rs:207-221 | a predefined category is named by one of the predefined names, a user-defined one by its own name |
| Fmi3Types.FromStr | fmiapi/src/fmi3/fmi3_types.rs:250-265 | a name converts to a category named by it; user-defined exactly when the name is not predefined |
| Fmi3Types.FromStrOfStrName | fmiapi/src/fmi3/fmi3_types.rs:207-265 | converting a category's name back gives the category, unless a user-defined category takes a predefined name |
| Fmi3Types.UserDefinedShadowed | fmiapi/src/fmi3/fmi3_types.rs:250-265 | a user-defined category named "logEvents" comes back as the predefined one |
| Fmi3Types.LevelCategory | fmiapi/src/fmi3/fmi3_types.rs:223-241 | the logger's level categories are predefined ones |
| Fmi3Types.LevelCategoryMatchesStatus | fmiapi/src/fmi3/fmi3_types.rs:223-241 | above Ok, a level's category is "logStatus" followed by the name of its status |
| Fmi3Types.QualifierFromValue | fmiapi/src/fmi3/fmi3_types.rs:136-144 | `Fmi3IntervalQualifier::try_from` succeeds exactly for 0..2 and inverts the discriminant |
| FmiVersions.MajorVersion | common/src/lib.rs:20-31 | a version is detected exactly when the document reads and the attribute opens with '1', '2' or '3', and it is the version of that digit |
| FmiVersions.MajorVersionOfDigit | common/src/lib.rs:22-26 | only the first character decides: a string opening with a version's digit detects it |
| ProtobufExtensions.ExtractFrom | fmiapi/src/protobuf_extensions.rs:15-26 | `extract_from` yields the wrapped message exactly when the return holds the designated variant |
| ProtobufExtensions.ExtractFromUnique | fmiapi/src/protobuf_extensions.rs:15-26 | at most one designated variant extracts from a return |
| ProtobufExtensions.DesignatedBijective | fmiapi/src/fmi3/fmi3_types.rs:296-322 | the return types and the variants they are extracted from correspond one to one |

## Left out

- Sockets, ZeroMQ, tokio, subprocesses and the race between the backend process and its socket. A socket is a sequence of sent messages and a script of received ones, and a process is its exit code.
- The state of a REQ/REP socket after a backend drops a command without replying. The Java loops and the older Python launcher do this; the model only records that nothing was sent.
- Raw pointers, `from_raw_parts`, `CString` buffers and boxing across the FFI. C output arrays are `Cells` objects, and only the decisions the C functions make are modelled.
- Floating-point arithmetic: time sums in do-step, float additions in the output updates, counter/resolution division, and the conversion of an integer or a `float` assigned by reflection to a floating-point property. Floats are bit patterns, and each of these operations is a parameter (`FloatOps`) of the operations that need it.
- Java object serialization and Python pickle. The state image is the snapshot of fields they carry. Only the C# `BinaryWriter` layout is modelled byte for byte.
- Reflection (`PropertyInfo`, `Field`, `getattr`/`setattr`). It is replaced by explicit maps from value reference to typed value. What `PropertyInfo.SetValue` does with a value of another primitive type is kept: it widens the value as .NET does (CsharpValues.Assign) or raises `ArgumentException`.
- The text of log and error messages, `eprintln` output and the `fmt_logging` feature. Where a message matters, it is a constant.
- Parsing of XML model descriptions, `launch.toml`, JSON and environment variables. The parsed values are inputs. For example, the C# FMI 2.0 model's reference table from `UNIFMU_REFS_TO_ATTRS` is a constructor parameter.
- `fmi2Instantiate` and `fmi3InstantiateCoSimulation`'s process start and handshake wait, beyond the commands they send. They also depend on configuration files and a subprocess.
- The numbering of the `Fmi3Return` oneof fields, which the modelled sources do not show. It is a parameter of the wire-level lemmas of the Python FMI 3.0 backend.
- The handshake status numbers: Ok is taken to be 0 and Error 1, the order of the protobuf enumeration.
- The FMI 2.0 dispatcher decodes bare return messages, while the backends send them wrapped in `Fmi2Return`. The model treats replies at the level of their variant and does not model that decoding.
- The parse failure of a Java `loggingCallback` acknowledgement. It is folded into the refusal exit with code 1.
- The C# FMI 2.0 backend and model do not compile together as shipped: assets/csharp/backend_body.cs:103 calls `model.Fmi2SetReal`, while assets/csharp/model.cs:67 names the method `FmiSetReal`. CsharpFmi2Backend.Route and CsharpFmi2Model.Model.SetValues take the evidently intended binding, in which the real setter is reached through `SetValueReflection` like the other three.
- The Python template's module naming: `python_fmu/fmi2.py` defines `FMU`, while `launch.py` imports `Fmi2FMU`. The launcher is modelled with its handler methods as a parameter.
- The process handle (`popen`) of the older C libraries, and their use of the global slave maps from several threads.
- Authoring: `add_independent_variable` is modelled as always raising `TypeError`, because `_add_variable` is called without required arguments.
- Authoring: `declare_base_unit` ignores `factor` and `offset`, and a second display unit replaces the first.
- Authoring: dependencies and units are never written to the XML, so the description covers categories, variables and output indices only.
- Authoring: the XML text, `declare_default_experiment` and the descriptions of log categories, which are stored in a dictionary.
- Fmi3Api.Escalate: `Fmi3Status::escalate_status` and `Fmi3Status::output_is_defined`, called throughout fmiapi/src/fmi3/mod.rs (the getters, `fmi3DoStep`, `fmi3GetFMUState`), are not defined in the modelled sources. Escalate is taken to be the more severe of the two statuses in the order OK, Warning, Discard, Error, Fatal, the order `is_fault` compares in, and the severity lemmas hold under that reading. `output_is_defined` is a parameter (`outputIsDefined`) of every getter, of DoStep and of GetFmuState.
- Fmi3Commands.RepliesAwaited: stated for model calls that log nothing. A logging call is covered separately by the log-callback lemmas of BackendLoops.
- Fmi2Commands.RepliesAwaited: stated for model calls that log nothing. Logging calls are covered by Fmi2Commands.LoggedAnswer and Fmi2Commands.LogRefused.
- BinaryIo.ReadString: an incomplete UTF-8 sequence at the very end of a string becomes U+FFFD here. .NET's decoder is called without flushing, so it keeps those bytes and joins them to the next string the same reader reads; that carry-over is not modelled.
- BinaryIo.WriteString: a string whose UTF-8 byte count does not fit an `int` gets a longer count prefix here. .NET raises before writing it, so the round-trip lemmas require every string to fit.
- SerializationWrapper.WrapperSlave.SetDebugLogging: the categories arrive as text, so the panic of `to_str().unwrap()` on a category that is not UTF-8 is not modelled for the older library.
- Fmi2Api.GetDirectionalDerivative: requires `nvr_known` to be at most `nvr_unknown`. A larger known count reads and writes past the importer's arrays, which is undefined behaviour.
- PythonFmi2Model.Model.Deserialize: restores the fields and does not recompute the outputs, as the source does.
- CsharpFmi2Model.Model.Reset: does nothing and answers OK, as the source does.
- The Rust token stream the `unifmu_macros` crate produces. Only the list of variants it enumerates and the names it derives from them are modelled.
- Superseded and duplicate copies of the backends and templates. Each modelled behaviour is taken from one copy, the one cited in the table above.
- Remote and proxy backends, the graphical tool and the command-line front end. They only start processes and copy files.

## Findings

| source | as written | input that shows it | evidently intended | confidence | as-written member | corrected member |
|---|---|---|---|---|---|---|
| assets/csharp/fmi3/backend_body.cs:313-326 | a getter branch passes the model's null value list to `AddRange`, which throws, so the backend dies | `Fmi3GetFloat64` of reference 1001 in step mode: the model answers (Error, null) | the error status is replied with no values | high, not executed | CsharpFmi3Backend.GetterReplyAsWritten | CsharpFmi3Backend.GetterReply |
| fmiapi/src/common/logger/mod.rs:95-98 | `disable_all_categories` installs an empty blacklist, which enables every category | `disable_all_categories()` followed by a log event of any category: it is still emitted | an empty whitelist, which suppresses all log events | high, not executed | Logging.Logger.DisableAllCategoriesAsWritten | Logging.Logger.DisableAllCategories |
| tool/unifmu/authoring.py:348 | `add_real_input` (and `add_real_parameter` and `add_real_output`, :377 and :395) passes `type=type`, the builtin, which becomes the tag of the type element (:558); `ET.tostring` (:613) cannot serialise a tag that is not a string | `add_real_input("u", start=0.0)` then `get_model_description()` raises `TypeError` | the FMI 2.0 type element name "Real" | high, not executed | Authoring.DescribeInputAsWritten | Authoring.DescribeInputCorrected |
| tool/unifmu/authoring.py:299-302 | `and` binds tighter than `or`, so every exact or approx variable is refused, start value or not | `add_real_parameter("k", "fixed", start=1.0)` raises `ValueError` | refuse only a variable that needs a start value and has none | high, not executed | Authoring.Fmi2Fmu.AddVariableAsWritten | Authoring.Fmi2Fmu.AddVariable |
| wrapper/src/lib.rs:360-367 | `fmi2SetDebugLogging` sends the C flag as `logging_on == 0`, which inverts it; the older library does the same at src/lib.rs:302-318 | `fmi2SetDebugLogging` with `loggingOn = 1`: the backend is told logging is off | `logging_on != 0`, as fmiapi/src/fmi2.rs does | high, not executed | SerializationWrapper.WrapperSlave.SetDebugLogging | SerializationWrapper.WrapperSlave.SetDebugLoggingCorrected |
| wrapper/src/lib.rs:455-462 | `fmi2DoStep` sends the C flag as `no_set_prior == 0`, which inverts it; the older library does the same at src/lib.rs:383-395 (both flags go through LegacyCalls.FlagAsWritten, whose corrected form is LegacyCalls.Flag) | `fmi2DoStep` with `noSetFMUStatePriorToCurrentPoint = fmi2True`: it reaches the backend as false | `no_set_prior != 0` | high, not executed | SerializationWrapper.WrapperSlave.DoStep | SerializationWrapper.WrapperSlave.DoStepCorrected |
| fmiapi/src/fmi2_dispatcher.rs:370-377 | the derivative getters return values only when the reply's list is empty | a derivative reply holding one value reaches the caller as OK with no values | values exactly when the list is non-empty, as the other getters do | high, not executed | Fmi2Dispatching.DerivativeReplyAsWritten | Fmi2Dispatching.GetterReply |
| fmiapi/src/fmi2.rs:630-639 | the unknown and known references are swapped, and the unknowns are cut to the known count | one unknown reference 0 and one known reference 1: the command asks for the derivative of reference 1 | the unknown references, the known references and the seed as given | high, not executed | Fmi2Api.DirectionalCommandAsWritten | Fmi2Api.DirectionalCommand |
| assets/csharp/fmi3/model.cs:250-254 | `Fmi3EnterInitializationMode` sets EventMode, so InitializationMode is never reached | `fmi3EnterInitializationMode` then a start value set on regular reference 0: Error | InitializationMode, as the Java model sets it | high, not executed | CsharpFmi3Model.Model.EnterInitializationModeAsWritten | CsharpFmi3Model.Model.EnterInitializationMode |
| tool/unifmu/resources/backends/csharp/fmi2.cs:149-172 | the getters cast a lazily selected `IEnumerable<object>` to `IEnumerable<double>` (and the other types), which throws `InvalidCastException` | `GetReal([0])` on a model whose reference 0 is a double | the values cast one by one | medium, not executed | CsharpFmi2Tool.Fmu.GetValuesAsWritten | CsharpFmi2Tool.Fmu.GetValues |
| assets/python/fmi3/backend.py:285-286 | replies are sent bare, without the `Fmi3Return` around them | `Fmi3InstantiateCoSimulation`: the empty reply reads as no return message, and dispatch fails with a return error | every reply wrapped, as `status_reply` in abstract_backend.py does | high, not executed | PythonFmi3Backend.SentAsWritten | PythonFmi3Backend.Sent |
| assets/python/fmi2/backend.py:61-75 | `Fmi2Return` is built with the keywords `Fmi2StatusReturn=`, `Fmi2LogReturn=` and `Fmi2EmptyReturn=`, which name no field, so protobuf raises `ValueError` | `Fmi2Instantiate`: the backend dies before its first reply | the field names `status=`, `log=` and `empty=`, as abstract_backend.py uses | high, not executed | PythonFmi2Backend.KeywordAsWritten | PythonFmi2Backend.Keyword |
