# Robot constraint editor: the tag-keyed store, its YAML readers and its writer

This project models the core of `robot_constraint_editor` and proves properties of the model. That core is a library that keeps vector-field-inequality (VFI) constraints for robots in a configuration file. A constraint record is one of two kinds:

- `ENVIRONMENT_TO_ROBOT`: an environment entity against a robot entity;
- `ROBOT_TO_ROBOT`: one robot entity against another.

Every record carries a `tag`. The pieces modelled:

- **Records** (`records.dfy`): the `RawData` variant with its two alternatives, `_get_vfi_type` and `_extract_tag`.
- **The YAML document** (`yaml.dfy`): the node kinds the readers meet (invalid, null, scalar, sequence, mapping); `node[key]`; the range-`for` over a node; and `as<std::string>`, `as<std::vector<std::string>>`, `as<int>`, `as<double>` and `as<bool>`. Each conversion is partial: it either gives a value or raises a `YAML::Exception`. Integers and their decimal text are in `decimal.dfy`.
- **The newer reader** `VFIConfigurationFileYaml` (`reader.dfy`), a class:
  - `read_data` runs `_extract_yaml_data`, which clears the records and reads the two metadata keys into fields that keep their previous values when the key is absent;
  - it then walks `vfi_array`, parsing each element after dispatching on `vfi_type`;
  - an element that raises a `YAML::Exception` is skipped;
  - a `std::runtime_error` (an unknown `vfi_type` or an empty entity list) stops the read and keeps the records pushed so far;
  - `get_data`, `get_vfi_file_version` and `is_zero_indexed` are the getters.
- **The legacy reader** (`legacy_reader.dfy`), the one the editor uses. Its constructor takes a path and parses at once. It subscripts the metadata keys but never converts them. It has its own `join_vector`.
- **The helpers** of `utils.cpp` (`utils.dfy`): `bool2string` and `join_vector`.
- **The editor** `RobotConstraintEditor` (`editor.dfy`), a class over the map `tag ↦ record`:
  - `load_data` builds the reader on the first call only. It clears the map, then `try_emplace`s every record, so the first record with a given tag wins.
  - `add_data` and `remove_data` each do one map operation, with their errors.
  - `replace_data` checks the tag and the kind, then calls `remove_data` followed by `add_data`.
  - `get_raw_data` lists the records in ascending tag order.
  - `save_data` writes the file text.
- **The written text** (`writer.dfy`), as pure functions:
  - the three header lines;
  - one block per record, with its fields in the fixed order of its kind;
  - strings in double quotes and entity lists as `["a", "b"]`;
  - `.0` after a `vfi_gain` equal to its `int` cast.
- **Round trip** (`roundtrip.dfy`): a saved store of writable records (`RoundTrip.Writable`) reads back through the newer reader as the same records and metadata. It reads back through the legacy reader, and so through `load_data`, as the same records and the same map. This rests on the assumption that the saved text denotes `RoundTrip.DocumentNode`.

Exceptions are values. `Outcome<T>` is `Ok(value)` or `Throw(ex)`, and `ex` is either a `YAML::Exception` or a `std::runtime_error` with its message.

A `double` is a `real`. How `std::ostream` prints one is a function parameter `render` of the writer. The file system is also a parameter: `LoadData` and `ReadData` receive the parsed document or the load failure, and `SaveData` receives whether the file could be opened for writing. `SaveData` returns the written lines.

Behaviour of the code worth knowing:

- **A bad element aborts the read.** An unknown `vfi_type` (`src/dqrobotics_extensions/robot_constraint_editor/vfi_configuration_file_yaml.cpp:132`) or an empty entity list (`src/dqrobotics_extensions/robot_constraint_editor/vfi_configuration_file_yaml.cpp:59`) throws a `std::runtime_error`. The per-element handler catches only `YAML::Exception` (`src/dqrobotics_extensions/robot_constraint_editor/vfi_configuration_file_yaml.cpp:134`), so the whole read is aborted, not just that element (`Reader.ScanStopsAtFirstFatal`).
- **Absent metadata keeps its value.** When a metadata key is absent, the newer reader warns that it is "using default" (`src/dqrobotics_extensions/robot_constraint_editor/vfi_configuration_file_yaml.cpp:76` and `:83`). It actually keeps whatever the field held, which is 2 and `true` only before the first read (`Reader.AbsentMetadataKept`). The legacy reader, which the editor uses, never reads the metadata at all (`LegacyReader.LegacyIgnoresMetadata`).
- **`replace_data` is not atomic.** It calls `remove_data` and then `add_data` (`src/dqrobotics_extensions/robot_constraint_editor/robot_constraint_editor.cpp:91-92`). When the new record's tag belongs to another entry, the old entry is already erased by the time `add_data` throws (`Editor.ReplaceCollisionErasesOld`).
- **One message for every failed replace.** `replace_data` rethrows every `std::runtime_error` as `RobotConstraintEditor::edit_data: Fail to update the VFI data!` (`src/dqrobotics_extensions/robot_constraint_editor/robot_constraint_editor.cpp:93-95`).

## Model

| member | source | states |
|---|---|---|
| Records.GetVfiType | include/dqrobotics_extensions/robot_constraint_editor/vfi_configuration_file.hpp:65 | the kind is `EnvironmentToRobot` exactly for the first alternative and `RobotToRobot` exactly for the second; the variant is closed, so there is no unsupported case |
| Yaml.Lookup | src/dqrobotics_extensions/robot_constraint_editor/vfi_configuration_file_yaml.cpp:73 | `node[key]` throws a `YAML::Exception` exactly on an invalid node or a scalar; on a mapping it gives the value of the first entry with that key, or the invalid node |
| Yaml.Elements | src/dqrobotics_extensions/robot_constraint_editor/vfi_configuration_file_yaml.cpp:91 | iterating a sequence visits its items; iterating a mapping visits one invalid node per entry; anything else visits nothing |
| Yaml.AsString | src/dqrobotics_extensions/robot_constraint_editor/vfi_configuration_file_yaml.cpp:93 | `as<std::string>` gives a scalar's text and reads a null as `null`; any other node fails, and only with a `YAML::Exception` |
| Yaml.AsStrings | src/dqrobotics_extensions/robot_constraint_editor/vfi_configuration_file_yaml.cpp:57 | `as<std::vector<std::string>>` converts a sequence item by item, keeping order and length, or fails with a `YAML::Exception` |
| Yaml.AsInt | src/dqrobotics_extensions/robot_constraint_editor/vfi_configuration_file_yaml.cpp:104 | `as<int>` fails only with a `YAML::Exception` |
| Yaml.AsDouble | src/dqrobotics_extensions/robot_constraint_editor/vfi_configuration_file_yaml.cpp:106 | `as<double>` fails only with a `YAML::Exception` |
| Yaml.AsBool | src/dqrobotics_extensions/robot_constraint_editor/vfi_configuration_file_yaml.cpp:81 | `as<bool>` fails only with a `YAML::Exception` |
| Yaml.AsIntOfIntToString | src/dqrobotics_extensions/robot_constraint_editor/robot_constraint_editor.cpp:139 | an `int` written in decimal reads back with `as<int>` as the same value |
| Yaml.AsBoolOfBool2String | src/dqrobotics_extensions/robot_constraint_editor/utils.cpp:7-10 | the text `bool2string` gives a flag reads back with `as<bool>` as that flag |
| Decimal.IntToStringRoundTrip | src/dqrobotics_extensions/robot_constraint_editor/robot_constraint_editor.cpp:172-173 | the decimal text of an integer parses back to that integer |
| Decimal.NatToStringRoundTrip | src/dqrobotics_extensions/robot_constraint_editor/robot_constraint_editor.cpp:211-214 | the decimal digits written for a natural number evaluate back to that number |
| Utils.JoinVector | src/dqrobotics_extensions/robot_constraint_editor/utils.cpp:19-28 | the loop builds `Join(vec, delimiter)`: empty for no elements, the element itself for one |
| Utils.JoinAppend | src/dqrobotics_extensions/robot_constraint_editor/utils.cpp:19-28 | appending an element to a non-empty list adds exactly one delimiter and the element |
| Utils.JoinLength | src/dqrobotics_extensions/robot_constraint_editor/utils.cpp:19-28 | the joined text is as long as all elements together plus `n - 1` delimiters |
| LegacyReader.JoinVector | src/vfi_configuration_file_yaml.cpp:43-52 | the legacy `join_vector` builds the same text as the one in `utils.cpp`, with the same empty and singleton cases |
| TagOrder.LessIrreflexive | src/dqrobotics_extensions/robot_constraint_editor/robot_constraint_editor.cpp:26 | no tag is ordered before itself by the map's `std::string` ordering |
| TagOrder.LessTotal | src/dqrobotics_extensions/robot_constraint_editor/robot_constraint_editor.cpp:26 | of two different tags, one is ordered before the other |
| TagOrder.LessAsymmetric | src/dqrobotics_extensions/robot_constraint_editor/robot_constraint_editor.cpp:26 | two tags are never each ordered before the other |
| TagOrder.LessTransitive | src/dqrobotics_extensions/robot_constraint_editor/robot_constraint_editor.cpp:26 | the tag ordering is transitive |
| TagOrder.MinimumExists | src/dqrobotics_extensions/robot_constraint_editor/robot_constraint_editor.cpp:247 | every non-empty set of tags has a smallest tag |
| TagOrder.MinimumUnique | src/dqrobotics_extensions/robot_constraint_editor/robot_constraint_editor.cpp:247 | the smallest tag of a set is unique |
| TagOrder.Minimum | src/dqrobotics_extensions/robot_constraint_editor/robot_constraint_editor.cpp:247 | the tag chosen is in the set and no tag of the set is ordered before it |
| TagOrder.AscendingEnumerates | src/dqrobotics_extensions/robot_constraint_editor/robot_constraint_editor.cpp:247-248 | the map's visiting order lists every key exactly once, in strictly ascending order |
| Reader.GetVectorList | src/dqrobotics_extensions/robot_constraint_editor/vfi_configuration_file_yaml.cpp:53-62 | an invalid node throws a `YAML::Exception`; a defined node that is not a sequence gives the empty list with no error; an empty sequence throws the `std::runtime_error` "`key`is an empty list!"; a non-empty sequence gives its converted items; a `std::runtime_error` comes only from the empty sequence |
| Reader.StringAt | src/dqrobotics_extensions/robot_constraint_editor/vfi_configuration_file_yaml.cpp:93 | `parameter[key].as<std::string>()` fails only with a `YAML::Exception`, so the element is skipped |
| Reader.IntAt | src/dqrobotics_extensions/robot_constraint_editor/vfi_configuration_file_yaml.cpp:104-105 | `parameter[key].as<int>()` fails only with a `YAML::Exception` |
| Reader.DoubleAt | src/dqrobotics_extensions/robot_constraint_editor/vfi_configuration_file_yaml.cpp:106-107 | `parameter[key].as<double>()` fails only with a `YAML::Exception` |
| Reader.ParseElement | src/dqrobotics_extensions/robot_constraint_editor/vfi_configuration_file_yaml.cpp:93-133 | a `vfi_type` that does not read skips the element with its `YAML::Exception`; a `vfi_type` other than the two names throws `Unknown VFI type: ` followed by it; a parsed record has that `vfi_type` string, and its kind is the one the string names |
| Reader.ParseEnvironmentToRobot | src/dqrobotics_extensions/robot_constraint_editor/vfi_configuration_file_yaml.cpp:95-110 | a parsed environment-to-robot record holds, in every field, what the key of the same name reads; a failing `cs_entity_environment` read is the element's failure |
| Reader.ParseRobotToRobot | src/dqrobotics_extensions/robot_constraint_editor/vfi_configuration_file_yaml.cpp:112-129 | a parsed robot-to-robot record holds, in every field, what the key of the same name reads; a failing `cs_entity_one` read is the element's failure |
| Reader.SurvivorsKeepFileOrder | src/dqrobotics_extensions/robot_constraint_editor/vfi_configuration_file_yaml.cpp:135-137 | a `YAML::Exception` skips only its own element: every element that parses has its record in the result, right after those of the elements before it |
| Reader.ScanCompletes | src/dqrobotics_extensions/robot_constraint_editor/vfi_configuration_file_yaml.cpp:91-138 | when no element throws a `std::runtime_error`, the loop runs to the end and keeps exactly the parsed records, in file order |
| Reader.ScanStopsAtFirstFatal | src/dqrobotics_extensions/robot_constraint_editor/vfi_configuration_file_yaml.cpp:131-149 | the first element that throws a `std::runtime_error` aborts the read with that exception, and the records of the elements before it stay |
| Reader.ReadVersion | src/dqrobotics_extensions/robot_constraint_editor/vfi_configuration_file_yaml.cpp:73-77 | an absent `vfi_file_version` keeps the current value |
| Reader.ReadZeroIndexed | src/dqrobotics_extensions/robot_constraint_editor/vfi_configuration_file_yaml.cpp:80-83 | an absent `zero_indexed` keeps the current value |
| Reader.FileFailureAborts | src/dqrobotics_extensions/robot_constraint_editor/vfi_configuration_file_yaml.cpp:140-149 | a file that cannot be opened or parsed aborts the read with a `std::runtime_error` carrying the message, with no records and the metadata untouched |
| Reader.AbsentMetadataKept | src/dqrobotics_extensions/robot_constraint_editor/vfi_configuration_file_yaml.cpp:37-38 | absent metadata keys leave both fields at the values they held, which are not reset between reads |
| Reader.CompletedReadKeepsSurvivors | src/dqrobotics_extensions/robot_constraint_editor/vfi_configuration_file_yaml.cpp:67-151 | with readable metadata and no element throwing a `std::runtime_error`, the read completes with the parsed records in file order and the metadata read |
| Reader.VfiConfigurationFileYaml.constructor | src/dqrobotics_extensions/robot_constraint_editor/vfi_configuration_file_yaml.cpp:160-165 | the constructor parses nothing; no records, version 2 and zero-indexed |
| Reader.VfiConfigurationFileYaml.ReadData | src/dqrobotics_extensions/robot_constraint_editor/vfi_configuration_file_yaml.cpp:171-175 | `read_data` remembers the path, starts from no records, and leaves the records, the metadata and the escaping exception that `_extract_yaml_data` gives from the fields' previous values |
| Reader.VfiConfigurationFileYaml.PushElements | src/dqrobotics_extensions/robot_constraint_editor/vfi_configuration_file_yaml.cpp:91-138 | the loop over `vfi_array` pushes the records the scan keeps and throws the exception that stops it; the metadata and path are unchanged |
| Reader.VfiConfigurationFileYaml.GetData | src/dqrobotics_extensions/robot_constraint_editor/vfi_configuration_file_yaml.cpp:183-188 | `get_data` throws "The vector data is empty!" exactly when there are no records, and otherwise returns them |
| LegacyReader.LegacyAgreesWithReader | src/vfi_configuration_file_yaml.cpp:138-206 | whenever the newer reader completes on a document, the legacy reader completes on it with the same records |
| LegacyReader.LegacyIgnoresMetadata | src/vfi_configuration_file_yaml.cpp:142-143 | the legacy reader fetches `vfi_file_version` but never converts it: a non-numeric version aborts the newer reader and not this one |
| LegacyReader.LegacyVfiConfigurationFileYaml.Init | src/vfi_configuration_file_yaml.cpp:130-131 | the new reader holds the path and no records |
| LegacyReader.LegacyVfiConfigurationFileYaml.ExtractYamlData | src/vfi_configuration_file_yaml.cpp:138-206 | the records of the document are appended in file order; the exception that stops the scan, or a file failure rethrown as `std::runtime_error`, escapes |
| LegacyReader.LegacyVfiConfigurationFileYaml.PushElements | src/vfi_configuration_file_yaml.cpp:146-193 | the loop appends the records the scan keeps and throws the exception that stops it |
| LegacyReader.LegacyVfiConfigurationFileYaml.New | src/vfi_configuration_file_yaml.cpp:128-133 | construction succeeds exactly when the parse completes, and then `get_raw_data` gives the parsed records in file order; otherwise the parse's exception escapes and no object is made |
| Writer.IsIntegralIffWhole | src/dqrobotics_extensions/robot_constraint_editor/robot_constraint_editor.cpp:178 | `gain == static_cast<int>(gain)` holds exactly for a whole number within the range of `int` |
| Writer.GainLiteralRule | src/dqrobotics_extensions/robot_constraint_editor/robot_constraint_editor.cpp:176-183 | the gain gets `.0` appended exactly when it is integral, and is otherwise printed as is |
| Writer.FieldsUseKeysOf | src/dqrobotics_extensions/robot_constraint_editor/robot_constraint_editor.cpp:145-229 | the keys written for a record are the keys of its kind, in order, with `vfi_type` first and `tag` last |
| Writer.RecordLinesFollowDeclaredOrder | src/dqrobotics_extensions/robot_constraint_editor/robot_constraint_editor.cpp:145-229 | a block is a `  -` line followed by one line per key of the record's kind, in the fixed order, starting with `vfi_type` and ending with `tag` |
| Writer.BlocksSnoc | src/dqrobotics_extensions/robot_constraint_editor/robot_constraint_editor.cpp:143-230 | one more record adds exactly its block at the end |
| Writer.BlocksInOrder | src/dqrobotics_extensions/robot_constraint_editor/robot_constraint_editor.cpp:143-230 | the block of each record appears whole, in the order given, right after the blocks of the records before it |
| Writer.SaveTextLayout | src/dqrobotics_extensions/robot_constraint_editor/robot_constraint_editor.cpp:139-141 | the file is `vfi_file_version: <n>`, `zero_indexed: true` or `false`, and `vfi_array:`, followed by nothing but the record blocks |
| Writer.QuotedItemsRoundTrip | src/dqrobotics_extensions/robot_constraint_editor/robot_constraint_editor.cpp:154-157 | a non-empty list of items written double-quoted with `, ` between them reads back as the same items when no item holds a double quote |
| Writer.ListLiteralRoundTrip | src/dqrobotics_extensions/robot_constraint_editor/robot_constraint_editor.cpp:153-158 | an entity list written in brackets reads back as the same list, empty lists included, when no item holds a double quote |
| Editor.KeyByTag | src/dqrobotics_extensions/robot_constraint_editor/robot_constraint_editor.cpp:72-75 | the map `load_data` builds files every record under its own tag |
| Editor.KeyByTagKeys | src/dqrobotics_extensions/robot_constraint_editor/robot_constraint_editor.cpp:72-75 | the loaded map has a key exactly for each tag some record carries |
| Editor.KeyByTagAbsent | src/dqrobotics_extensions/robot_constraint_editor/robot_constraint_editor.cpp:72-75 | a tag no record carries is not a key |
| Editor.KeyByTagFirstWins | src/dqrobotics_extensions/robot_constraint_editor/robot_constraint_editor.cpp:74 | with duplicate tags, the map holds the first record carrying the tag, because `try_emplace` never overwrites |
| Editor.InTagOrderFiled | src/dqrobotics_extensions/robot_constraint_editor/robot_constraint_editor.cpp:243-250 | the listing has one record per entry, tags strictly ascending, each record the one filed under its tag |
| Editor.InTagOrderComplete | src/dqrobotics_extensions/robot_constraint_editor/robot_constraint_editor.cpp:243-250 | every record of the map appears in the listing |
| Editor.InTagOrderListsStore | src/dqrobotics_extensions/robot_constraint_editor/robot_constraint_editor.cpp:243-250 | `get_raw_data` returns exactly the map's values, one per entry, in strictly ascending tag order |
| Editor.LoadAfterGetRawData | src/dqrobotics_extensions/robot_constraint_editor/robot_constraint_editor.cpp:68-76 | loading the records `get_raw_data` lists rebuilds the same map |
| Editor.AddStepSpec | src/dqrobotics_extensions/robot_constraint_editor/robot_constraint_editor.cpp:101-107 | `add_data` throws exactly when the tag is used and then leaves the map unchanged; otherwise it adds exactly `tag ↦ data` and changes nothing else; it keeps every record filed under its tag |
| Editor.RemoveUndoesAdd | src/dqrobotics_extensions/robot_constraint_editor/robot_constraint_editor.cpp:109-114 | removing the tag just added gives back the previous map |
| Editor.AddUndoesRemove | src/dqrobotics_extensions/robot_constraint_editor/robot_constraint_editor.cpp:101-107 | adding back the record just removed gives back the previous map |
| Editor.ReplaceStepSpec | src/dqrobotics_extensions/robot_constraint_editor/robot_constraint_editor.cpp:78-99 | `replace_data` succeeds exactly when the tag is present, the kinds agree, and the new tag is the same or free; then the old entry is replaced by the new record under its own tag, keeping the size; every failure is the one `edit_data` message; an absent tag or a change of kind leaves the store untouched; records stay filed under their tags |
| Editor.ReplaceSameTag | src/dqrobotics_extensions/robot_constraint_editor/robot_constraint_editor.cpp:91-92 | replacing a record by one with the same tag and kind gives `map[tag := data]` |
| Editor.ReplaceCollisionErasesOld | src/dqrobotics_extensions/robot_constraint_editor/robot_constraint_editor.cpp:91-95 | when the new record's tag belongs to another entry, `replace_data` throws with the old entry already erased |
| Editor.RobotConstraintEditor.constructor | src/dqrobotics_extensions/robot_constraint_editor/robot_constraint_editor.cpp:20-26 | an empty map, no reader, version 2 and zero-indexed |
| Editor.RobotConstraintEditor.LoadData | src/dqrobotics_extensions/robot_constraint_editor/robot_constraint_editor.cpp:68-76 | the first successful load makes the reader from the document and files its records by tag; later loads reuse the first reader's records whatever path or document they get; a failed first load throws the reader's exception and leaves the map and the missing reader as they were |
| Editor.RobotConstraintEditor.FileByTag | src/dqrobotics_extensions/robot_constraint_editor/robot_constraint_editor.cpp:71-75 | clearing the map, then `try_emplace` in order, gives `KeyByTag` of the records |
| Editor.RobotConstraintEditor.AddData | src/dqrobotics_extensions/robot_constraint_editor/robot_constraint_editor.cpp:101-107 | the map and the result are those of `AddStep`, whose properties `AddStepSpec` states |
| Editor.RobotConstraintEditor.RemoveData | src/dqrobotics_extensions/robot_constraint_editor/robot_constraint_editor.cpp:109-114 | an absent tag throws `Tag '<tag>' not found!` and leaves the map; otherwise exactly that key is erased (`RemoveStep`) |
| Editor.RobotConstraintEditor.ReplaceData | src/dqrobotics_extensions/robot_constraint_editor/robot_constraint_editor.cpp:78-99 | before any reader exists nothing happens; afterwards the map and result are those of `ReplaceStep` |
| Editor.RobotConstraintEditor.GetRawData | src/dqrobotics_extensions/robot_constraint_editor/robot_constraint_editor.cpp:243-250 | the loop over the map yields the records in ascending tag order |
| Editor.RobotConstraintEditor.SaveData | src/dqrobotics_extensions/robot_constraint_editor/robot_constraint_editor.cpp:116-242 | an empty path throws before anything is written; a file that cannot be opened throws; otherwise the lines are the header and the block of every record in ascending tag order; errors carry the `Error in save_data: ` prefix |
| Editor.RobotConstraintEditor.WriteBlocks | src/dqrobotics_extensions/robot_constraint_editor/robot_constraint_editor.cpp:143-230 | the loop writes the blocks of the records in order |
| RoundTrip.WritableExample | src/dqrobotics_extensions/robot_constraint_editor/robot_constraint_editor.cpp:188-227 | the round trip has inputs: a robot-to-robot record with gain and safe distance 0.5, printed as `0.5`, meets every condition the round-trip lemmas require |
| RoundTrip.ParseElementOfFields | src/dqrobotics_extensions/robot_constraint_editor/vfi_configuration_file_yaml.cpp:93-133 | an element whose keys all read as the fields of a record, with the `vfi_type` naming its kind, parses as that record |
| RoundTrip.KeysAreDistinct | src/dqrobotics_extensions/robot_constraint_editor/robot_constraint_editor.cpp:149-227 | no key is written twice in a block |
| RoundTrip.ListNodeReadsBack | src/dqrobotics_extensions/robot_constraint_editor/vfi_configuration_file_yaml.cpp:53-62 | a non-empty written entity list reads back through `get_vector_list` as itself |
| RoundTrip.EnvironmentToRobotLookups | src/dqrobotics_extensions/robot_constraint_editor/robot_constraint_editor.cpp:149-186 | every key of a written environment-to-robot block reads back as its field |
| RoundTrip.RobotToRobotLookups | src/dqrobotics_extensions/robot_constraint_editor/robot_constraint_editor.cpp:188-227 | every key of a written robot-to-robot block reads back as its field |
| RoundTrip.RecordNodeReadsBack | src/dqrobotics_extensions/robot_constraint_editor/robot_constraint_editor.cpp:145-229 | a written block of a record parses back as the record, provided the record is writable: its `vfi_type` names its own kind, its strings hold no double quote, backslash or line break, its entity lists are non-empty, and its doubles print back as themselves |
| RoundTrip.EmptyListStopsLoad | src/dqrobotics_extensions/robot_constraint_editor/vfi_configuration_file_yaml.cpp:53-62 | a record of either kind whose `vfi_type` names its kind and which has an empty entity list is written with `[]`; reading it back throws the `std::runtime_error` naming the first empty list in reading order, and that error aborts the load |
| RoundTrip.MislabelledRecordIsSkipped | src/dqrobotics_extensions/robot_constraint_editor/vfi_configuration_file_yaml.cpp:95-137 | a robot-to-robot record whose `vfi_type` says `ENVIRONMENT_TO_ROBOT` (which `add_data` accepts) is saved, but reading its block back throws a `YAML::Exception`, so the record is dropped on reload |
| RoundTrip.UnknownTypeStopsLoad | src/dqrobotics_extensions/robot_constraint_editor/vfi_configuration_file_yaml.cpp:93-133 | a record whose `vfi_type` names neither kind (the empty string, say) is saved, but reading its block back throws the `Unknown VFI type: ` `std::runtime_error` that aborts the load |
| RoundTrip.DocumentReadsBack | src/dqrobotics_extensions/robot_constraint_editor/robot_constraint_editor.cpp:116-242 | for a store whose every record is writable (its `vfi_type` names its own kind, its strings hold no double quote, backslash or line break, its lists are non-empty, its doubles print back as themselves), the saved file reads back through the newer reader as the records in the order written and the metadata written, whatever metadata the reader held; the legacy reader also reads back the same records |
| RoundTrip.SaveThenLoad | src/dqrobotics_extensions/robot_constraint_editor/robot_constraint_editor.cpp:116-242 | saving a store whose every record is writable (as for `RoundTrip.DocumentReadsBack`) and loading the file into a fresh editor gives back the same map |

`Reader.ParseAll`, `Writer.EnvironmentToRobotFields`, `Writer.RobotToRobotFields`, `Writer.FieldLines` and `Writer.BlockList` are helpers whose contracts only spell out their own definitions; the properties of what they build are stated by `Writer.FieldsUseKeysOf`, `Writer.RecordLinesFollowDeclaredOrder`, `Writer.BlocksInOrder` and the reader lemmas above.

The getters `get_vfi_file_version`, `is_zero_indexed`, `get_raw_data` (legacy reader), `is_tag_in_map`, `_extract_tag` and `bool2string` are modelled as functions that read a field or return a value, with no contract of their own.

## Left out

- Files on disk: `LoadFile`, `create_directories`, opening the output stream, and the `Filesystem error: ` rewrapping are not modelled. The document a path holds, or its failure, is a parameter, and so is whether the output file can be opened for writing.
- Console output: the warnings for absent metadata, the per-element `Error parsing VFI item` messages, the message `replace_data` prints before rethrowing, the `Successfully saved` line, `show_raw_data` and `log_complete_raw_data`.
- Text parsing of YAML: the model starts from the parsed node tree. That the text `save_data` writes denotes `RoundTrip.DocumentNode` is an assumption of the round-trip lemmas, not a proved fact. Strings holding a double quote, a backslash or a line break would not read back, since the writer does not escape them; `RoundTrip.Writable` excludes them.
- RoundTrip.RecordNodeReadsBack, RoundTrip.DocumentReadsBack, RoundTrip.SaveThenLoad: `add_data` and `replace_data` accept any `vfi_type`, so a store can hold records these lemmas do not cover; `RoundTrip.UnknownTypeStopsLoad` and `RoundTrip.MislabelledRecordIsSkipped` show what reloading such a record does.
- Floating point: how `std::ostream` prints a `double` is the parameter `render`. Infinities, NaN and the exponent forms `render` may produce (for example `1e+06.0` for a large integral gain) are not modelled. The round trip assumes, through `RoundTrip.Writable`, that each printed double reads back as itself.
- Writer.IsIntegral: the `static_cast<int>` of an out-of-range gain is undefined behaviour in C++; the model takes such a gain as not integral.
- Yaml.AsInt: yaml-cpp converts with a stream that detects the base, so `010` reads as 8 and `0x1A` as 26; the model reads decimal digits only (with an optional sign), so it reads `010` as 10 and rejects `0x1A`.
- Yaml.AsDouble: yaml-cpp also accepts exponent forms (`1e3`), `.inf` and `.nan`; the model accepts plain decimals with an optional sign and an optional fractional part.
- LegacyReader.LegacyVfiConfigurationFileYaml.ExtractYamlData: the legacy reader reports an empty `cs_entity_two` list as `cs_entity_robotis an empty list!`; the model reuses the newer reader's element parse, whose message names `cs_entity_two`. Only the text of that exception differs.
- Field-level editing (`edit_data`): no source defines it.
- The editor's `config_` field: no operation uses it, so the editor class has no such field. The `vfi_file_version_` and `zero_indexed_` fields, which no operation reads or writes, are fields that no operation changes.
- `VFIConfigurationFileYaml::save_data` of the newer reader: an empty stub.
- Concurrency: the source has none.
