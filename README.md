# faust2sc in Dafny

A model of the deterministic core of `faust2sc.py`. The script turns a Faust DSP into a SuperCollider
plugin: a class file (`*.sc`), a help file (`*.schelp`) and compiled plugin objects. The model covers
the parts that decide what is generated from the DSP's JSON metadata and from the platform:

- **Metadata** (`metadata.dfy`): the parsed JSON as datatypes. `flatten_list_of_dicts` is a
  `ChainMap`, modelled as a first-match `Lookup` over a sequence of maps.
- **Class names** (`class_name.dfy`): `normalizeClassName` (a loop with the `upnext` flag, kept
  with its quirk), `dsp_name` and `get_class_name` (the optional "Faust" prefix and the 31-character
  cap). A reference definition by words (split at separators, capitalise, join) is proved equal to the
  loop on names without leading or doubled separators.
- **Labels** (`labels.dfy`): `sanitize_label`, which deletes ten characters one after the other and
  lower-cases the rest.
- **Argument list** (`parameters.dfy`): `get_parameter_list`, the `*ar`/`*kr` signature.
- **Help file** (`help_file.dfy`): `get_help_file_arguments` (one `ARGUMENT::` block per control)
  and `class_help`.
- **Class file** (`class_file.dfy`): `get_sc_class`, with the parent class, `init` override and
  `checkInputs` block chosen from the channel counts.
- **Compiler flags** (`build_flags.dfy`): the `faustoptflags` decision table and `build_flags`.
- **Header search** (`headers.dfy`): `get_header_paths` and `find_headers` over a set of existing
  paths.
- **Driver decisions** (`driver.dfy`): the `--noprefix` setting, the selection of plugin
  objects to move and their destination. All three are in "## Findings".

Loops in the source become methods, and each method is proved equal to a specification function.
The properties are proved about those functions. Text is `seq<char>` and case mapping is ASCII.
JSON numbers carry both their value (for Python truthiness) and the text `%s` prints for them.
Python's `KeyError`/`IndexError` on missing keys become `Err` results.

Where the code and the documented design differ, the model follows the code:

- The supernova object is `<class>_supernova.<ext>`.
- Class-name normalisation is not idempotent in general, and it does not always start with an
  upper-case letter: a leading separator or digit stays.
- A class for one output or fewer declares `UGen` as its parent. Other text, such as the class name,
  may still spell "MultiOutUGen".

## Model

| member | source | states |
|---|---|---|
| Metadata.LookupFirstMatch | faust2sc.py:60-61 | A flattened lookup is absent exactly when no dict has the key. When present, its value comes from the first dict that has the key. |
| Text.Take | faust2sc.py:406 | A slice `[0:n]` keeps the first `min(n, len)` characters and is a prefix of the input. |
| Text.NatTextRoundTrip | faust2sc.py:337-341 | The decimal text `%s` prints for a count reads back as that count: a non-empty digit string with no leading zero. |
| ClassName.Normalize | faust2sc.py:392-406 | The normalised name has at most 30 characters and is no longer than the input. A non-empty input's first character is upper-cased. |
| ClassName.NormalizeClassName | faust2sc.py:392-406 | The loop with `upnext` and `continue`, followed by the `[0:maxlen-1]` slice, computes `Normalize`. |
| ClassName.NormalizeIsCamelCase | faust2sc.py:392-406 | On names without a leading or doubled separator, the result is the words between separators, each capitalised, run together and cut to 30 characters. |
| ClassName.NormalizeExample | faust2sc.py:392-406 | "my-synth" becomes "MySynth", and "" stays "". |
| ClassName.NormalizeKeepsSomeSeparators | faust2sc.py:396-399 | A leading separator survives ("_ab"), and so does the second of two consecutive separators ("a__b" gives "A_b"). Normalising "A_b" again gives "AB", so normalisation is not idempotent. |
| ClassName.NormalizeIdempotentWithoutSeparators | faust2sc.py:392-406 | Normalising a result that holds no separator gives it back unchanged. |
| ClassName.DspName | faust2sc.py:408-410 | The DSP's name is its normalised `name` field: at most 30 characters, no longer than the field, with a non-empty field's first character upper-cased. |
| ClassName.GetClassName | faust2sc.py:377-389 | The class name has at most 31 characters. With `noprefix == 1` it is `dsp_name`. Otherwise it starts with "Faust" and is "Faust" plus the name, cut to its first 30 characters exactly when that is longer than 31. |
| Labels.RemovedIsRemoveChars | faust2sc.py:324 | The deleted characters are exactly the ten characters of `remove_chars`. |
| Labels.SanitizeLabel | faust2sc.py:322-327 | The loop of `replace` calls followed by `lower()` computes `Sanitized`. |
| Labels.SanitizedIsClean | faust2sc.py:322-327 | A sanitised label holds none of `\ - _ / ( [ ^ ) ] *` and no upper-case letter. |
| Labels.SanitizedFixesExactlyClean | faust2sc.py:322-327 | Sanitising leaves a label unchanged if and only if the label is already clean. |
| Labels.SanitizedIdempotent | faust2sc.py:322-327 | Sanitising twice is the same as sanitising once. |
| Labels.SanitizedConcat | faust2sc.py:322-327 | Sanitising works character by character: sanitising a concatenation concatenates the sanitised parts. |
| Parameters.ParameterList | faust2sc.py:330-374 | The list fails exactly when `ui` is empty or its first group has no `items`. It is empty when there are no inputs and no controls. |
| Parameters.GetParameterList | faust2sc.py:330-374 | The inputs loop, the items loop with `counter`, and the final join compute `ParameterList`: `in0, …, in{n-1}`, then the controls joined by ", ", the two parts joined by "," when both are present. |
| Parameters.ParameterCountWithInit | faust2sc.py:330-374 | With comma-free labels and defaults, the list with initialisation has one entry per input and per control. Its commas are exactly the separators between entries, and it is empty only when there is nothing to list. |
| HelpFile.ArgumentOf | faust2sc.py:226-250 | A block's name is the sanitised label, or "" without one. Its tooltip is present exactly when the item's flattened `meta` has one, and then it comes from the first dict that has it. Bounds are present exactly when `min` and `max` are both present and non-zero. |
| HelpFile.HelpArguments | faust2sc.py:221-254 | Fails exactly when no UI group has `items`. Otherwise it is one block per item of the first group that has `items`, in order. |
| HelpFile.GetHelpFileArguments | faust2sc.py:221-254 | The loop computes `HelpArguments`, including Python's precedence, under which the min/max text is appended as one unit. |
| HelpFile.Description | faust2sc.py:263-266 | The description is the first `description` in `meta`, or "A Faust plugin" when there is none. |
| HelpFile.AuthorSentence | faust2sc.py:268-273 | The author sentence is empty exactly when no `meta` dict names an author. Otherwise it is "A Faust plugin written by <author>." for the first author. |
| HelpFile.HelpText | faust2sc.py:275-302 | The filled-in help template starts with `CLASS::<class name>`. It contains the paragraph with the channel counts and description, and the `METHOD::ar,kr` section with the argument blocks. |
| HelpFile.ClassHelp | faust2sc.py:257-304 | The help file fails exactly when the argument blocks fail. Otherwise it starts with `CLASS::<class name>`. It contains the paragraph with the input and output counts and the description (the first `description`, else "A Faust plugin"). It also contains the `METHOD::ar,kr` section with the argument blocks. |
| ClassFile.InitOverride | faust2sc.py:424-431 | The `init` override is non-empty and calls `initOutputs` with the output count. |
| ClassFile.InputCheck | faust2sc.py:437-452 | The `checkInputs` block is non-empty and loops over the input count. |
| ClassFile.SelectShape | faust2sc.py:422-455 | The parent is "MultiOutUGen" exactly when there is more than one output, and "UGen" otherwise. The `init` override is non-empty exactly then. The input check is non-empty exactly when there are inputs. |
| ClassFile.ClassSource | faust2sc.py:458-474 | The class template opens with `<class name> : <parent> {`. It holds both `*ar` and `*kr` with their argument lists and the `name` method, and ends with the input check, the `init` override and the closing brace. |
| ClassFile.ScClass | faust2sc.py:413-491 | The class text fails exactly when the argument list fails. Otherwise it declares `MultiOutUGen` as the parent when there is more than one output and `UGen` otherwise. With more than one output it calls `initOutputs(<outputs>, rate)`, and with inputs it loops over the input count. |
| ClassFile.ShapeShows | faust2sc.py:458-474 | Any text that opens with the declaration line and ends with the optional blocks contains the `<parent> {` declaration, the `init` override and the input check. |
| ClassFile.ClassFollowsChannelCounts | faust2sc.py:422-491 | The class declares the parent chosen from the output count. With more than one output it calls `initOutputs(<outputs>, rate)`. With inputs it loops over the input count. |
| BuildFlags.FaustOptFlags | faust2sc.py:78-125 | The flag table is as follows. `EXT` and `SCFLAGS` are missing exactly for `arm6vl` on Darwin. Darwin gives "scx" and `-DSC_DARWIN -bundle`; other systems give "so" and `-DSC_LINUX -shared -fPIC`. `MYGCCFLAGSGENERIC` is set exactly off `arm6vl`. `MYGCCFLAGS` is followed by `CXXFLAGS` after one space when that is set. |
| BuildFlags.MacArch | faust2sc.py:184-188 | The `-arch` option is "-arch x86_64" or "-arch arm64" exactly for those architectures, and "" otherwise. |
| BuildFlags.BuildFlags | faust2sc.py:182-191 | The flags fail with `KeyError("SCFLAGS")` exactly for `arm6vl` on Darwin. Otherwise they are "-O3", the SuperCollider flags, the include flags, the gcc flags and the `-arch` option, separated by spaces. |
| Headers.HeaderPaths | faust2sc.py:127-137 | The three directories are returned exactly when all of `plugin_interface`, `server` and `common` exist under the folder. |
| Headers.SearchFolders | faust2sc.py:147-158 | The folders after the user's path are the six fixed ones, then `<cwd>/supercollider`, then `$HOME/supercollider` only when `HOME` is non-empty. |
| Headers.FirstComplete | faust2sc.py:139-165 | The search finds nothing exactly when no candidate is complete. It returns the directories of the first complete candidate. |
| Headers.FindHeaders | faust2sc.py:139-165 | The early return and the loop over the folders compute `FirstComplete` over the user's path followed by the search folders. |
| Headers.UserPathWins | faust2sc.py:142-144 | When the user's path holds the headers, they are the result. |
| Headers.NotFoundExactly | faust2sc.py:139-165 | The search exits exactly when no candidate is complete: not the user's path, no fixed folder, not the working directory, and not `HOME` when it is set. |
| Headers.TrailingSlashFolderRepeatsFirst | faust2sc.py:148-152 | The fifth fixed folder names the same three directories as the first. |
| Driver.NoPrefixAsWritten | faust2sc.py:546 | For every accepted option value, `args.noprefix or 1` is 1. |
| Driver.NoPrefixZeroIgnored | faust2sc.py:546 | As written, every accepted option value gives the unprefixed class name. |
| Driver.NoPrefixSetting | faust2sc.py:536 | The option as documented: absent gives 1, and a given value is used as is. |
| Driver.NoPrefixSettingHonoured | faust2sc.py:536 | With the documented reading, `--noprefix 0` gives a name starting with "Faust", and 1 or no option gives the bare name. |
| Driver.Suffix | faust2sc.py:567 | A path suffix is empty, or it is a "." followed by at least one character with no further ".". It is a proper tail of the name. |
| Driver.WithSuffix | faust2sc.py:566-568 | The selected entries are exactly those whose suffix matches, in order. |
| Driver.WithSuffixAppend | faust2sc.py:566-568 | Selection keeps the listing's order: selecting from two listings in turn is the concatenation of the two selections. |
| Driver.NothingMovedAsWritten | faust2sc.py:566-568 | As written, no entry is moved for an extension that does not start with ".". This includes "so" and "scx". |
| Driver.ObjectSuffix | faust2sc.py:203-209 | The suffix of `<stem>.<ext>` is `.<ext>` for a non-empty stem and a non-empty extension without a dot. |
| Driver.PluginObjectsMoved | faust2sc.py:203-209 | With the corrected test, both compiled objects, `<class>.<ext>` and `<class>_supernova.<ext>`, are selected for the move. |
| Driver.MoveOntoItselfAsWritten | faust2sc.py:558-568 | As written, with the absolute temporary folder, each selected object is moved from its own path onto its own path. |
| Driver.MovedIntoTarget | faust2sc.py:558-568 | With the intended destination `trg_path / objfile.name`, an object goes to `<target>/<entry>`, which differs from its temporary path when the two folders differ. |

## Left out

- Running the `faust` compiler and the C++ compiler (`convert_files`, `include_flags`, `compile`): these are foreign programs. The include flags are a parameter of `BuildFlags.BuildFlags`.
- JSON parsing and file I/O (`read_json`, `write_file`, `make_help_file`, `make_class_file`): the parsed metadata is the `DspMeta` datatype. Its top-level `name`, `inputs`, `outputs`, `meta` and `ui` keys are assumed present.
- Platform detection and the `os.environ` defaults for `CXX`, `CC` and `LIPO`: the system name, the machine name, `CXXFLAGS`, the working directory and `HOME` are parameters.
- The rest of the command-line driver (argparse, creating and deleting the temporary folder, `copytree`, and the file-system effect of `move`): only the three decisions in "## Findings" are modelled, with each move as its source and target paths.
- Unicode case mapping: `upper()` and `lower()` are modelled on ASCII letters only.
- Python's float-to-text conversion: a JSON number carries the text `%s` prints for it.
- `Path` normalisation: `Headers.JoinPath` handles a trailing "/" and an empty folder, but it keeps "." components and repeated "/" that `pathlib` removes. For the default `--headerpath ./include` (faust2sc.py:539), Python looks for `include/server` where the model names `./include/server`. Both denote the same directory, but the model's set of existing paths must spell it that way.
- `sys.exit` in `find_headers` is `None` from `Headers.FindHeaders`, and a missing `SCFLAGS` key is an `Err` result.
- ClassFile.ClassFollowsChannelCounts: states the declared parent class, not the absence of "MultiOutUGen" elsewhere in the text, because a DSP or label name may contain that word. That neither block appears without outputs above one or without inputs is stated on the shape by `ClassFile.SelectShape`, where both are empty.

## Findings

| source | as written | input that shows it | evidently intended | confidence | as-written member | corrected member |
|---|---|---|---|---|---|---|
| faust2sc.py:546 | `noprefix = args.noprefix or 1` turns the falsy 0 into 1. | `--noprefix 0` still gives the unprefixed class name. | 0 adds the "Faust" prefix, as the option's help text at line 536 says. | high, not executed | Driver.NoPrefixZeroIgnored | Driver.NoPrefixSettingHonoured |
| faust2sc.py:567 | `objfile.suffix == ext` compares a suffix that starts with "." against an extension without it. | `<class>.so` with `ext == "so"` is never selected. | Compare against "." + `ext`. | high, not executed | Driver.NothingMovedAsWritten | Driver.PluginObjectsMoved |
| faust2sc.py:568 | `trg_path / objfile` with an absolute `objfile` (from `iterdir` on the absolute temporary folder) is `objfile` itself. | Any selected `<class>.so` under `/tmp/faust.x` is moved onto itself and deleted with the temporary folder. | Move to `trg_path / objfile.name`. | high, not executed | Driver.MoveOntoItselfAsWritten | Driver.MovedIntoTarget |
