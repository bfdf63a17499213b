# Neural-network builder: code generator, layer JSON and colour themes

This project models three sequential pieces of the neural-network builder
GUI and proves properties about them:

- **The PyTorch code generator** (`CodeGenerator::generatePyTorchCode`). It
  walks a list of flat layer records and builds one Python source text. The
  text has a fixed header and one `__init__` line per recognised layer, named
  after its 1-based position. Then comes the `forward` header and one call line
  per recognised layer. A Dense layer's call may be followed by an activation
  line. A fixed trailer ends the text. Module `CodeGen` (`codegen.dfy`) holds
  the specification `PyTorchCode`. Beside it, `GeneratePyTorchCode` runs the
  source's two index loops and is proved equal to `PyTorchCode`. `Entries`
  lists the recognised layers with their positions, and the lemmas describe
  both sections through it.
- **The layer hierarchy and its JSON form** (`backend.cpp`). There are eleven
  layer classes, each with a `toJsonObject` writer and a `fromJsonObject`
  reader. The reader checks required keys and gives absent or ill-typed
  fields their defaults. Each class also has a hand-built `toJson` text and a
  `getType` tag. A factory, `NeuralLayer::fromJsonObject`, dispatches on
  `"layerType"`. Module `LayerJson` (`layerjson.dfy`) models a JSON object as
  a `map<string, JVal>` and a layer as its base part (the activation name)
  plus one `Kind` constructor per class. The readers and the factory appear
  twice. As pure functions (`ReadFields`, `FromJsonObject`) they carry the
  properties. As heap code (`LayerObject.ReadJson`, `CreateLayer`) they
  assign fields in place and allocate, and are proved to agree with the
  functions.
- **The colour-theme registry** (`ColorGroup`). It holds a fixed table of four
  named palettes and a current palette. Module `Themes` (`themes.dfy`) models
  the table, a `QMap`, as an association list kept in ascending key order.
  `ColorGroup` is a class whose one mutable field is the current palette.

`Common` (`common.dfy`) holds the 32-bit `int` range, an `Option` type and the
decimal text `QString::arg(int)` produces.

Points worth knowing about the code:

- `generatePyTorchCode` inserts no flatten step between layers and emits no
  training code. It emits only the header, the two per-layer sections and
  the trailer.
- `backend.h` declares a flat, non-polymorphic `NeuralLayer`. This is the
  record the generator reads, so `CodeGen.Record` follows it, including the
  member initialisers `neurons = 1000`, `inputSize = 128` and
  `activationFunction = "relu"`. `backend.cpp` implements a class hierarchy
  whose declarations are not part of this model. `LayerJson` takes each
  class's fields from its constructor and its writer. The base constructor
  sets `activationFunction` to `""`.
- `QMap` keeps its keys sorted, so `availableThemes()` lists Classic, Dark,
  Ocean, Vibrant. That is not the declaration order (Classic, Dark, Vibrant,
  Ocean).

## Model

| member | source | states |
|---|---|---|
| `CodeGen.GeneratePyTorchCode` | codegenerator.cpp:4-78 | the text built by the header statements, the two loops and the trailer is exactly `PyTorchCode(layers)` |
| `CodeGen.AppendLayerDefinitions` | codegenerator.cpp:13-42 | the first loop appends, in list order, the `__init__` line of every record, each named after its 1-based position |
| `CodeGen.AppendForwardPass` | codegenerator.cpp:46-73 | the second loop appends, in list order, the forward lines of every record, each named after its 1-based position |
| `CodeGen.InitStatement` | codegenerator.cpp:15-41 | the if-chain of the first loop yields the table's `__init__` line for the record's tag, or nothing |
| `CodeGen.ForwardStatements` | codegenerator.cpp:48-72 | the if-chain of the second loop yields the table's call line, plus the activation line for Dense, or nothing |
| `CodeGen.PyTorchCode` | codegenerator.cpp:5-75 | whatever the layers, the text starts with the fixed comment, import, `class Net` and `super` header and ends with `return x` and `model = Net()` |
| `CodeGen.EmptyNetwork` | codegenerator.cpp:45-75 | for no layers the text is exactly the header, the `forward` header and the trailer |
| `CodeGen.CodeLayout` | codegenerator.cpp:13-73 | the text is the header, one `__init__` line per recognised layer, the `forward` header, one group of forward lines per recognised layer in the same order, and the trailer |
| `CodeGen.EntriesSound` | codegenerator.cpp:13-41 | every entry is a recognised record, taken from the list at its suffix minus one |
| `CodeGen.EntriesComplete` | codegenerator.cpp:13-41 | every recognised record at index i has an entry with suffix i+1 |
| `CodeGen.EntriesOrdered` | codegenerator.cpp:13-17 | suffixes of recognised layers strictly increase in list order |
| `CodeGen.AttrNamesDistinct` | codegenerator.cpp:16-40 | no two recognised layers get the same attribute name (`fc3`, `conv1`, ...) |
| `CodeGen.EmitsIffRecognised` | codegenerator.cpp:15-72 | a record emits text in either section exactly when its tag is one of the six the generator knows |
| `CodeGen.SectionsAppend` | codegenerator.cpp:13-17 | appending a record appends its own lines, named after its position |
| `CodeGen.SkippedLayerConsumesIndex` | codegenerator.cpp:13-41 | an unrecognised record emits nothing but still uses up its position, so the next layer is numbered one further on |
| `CodeGen.UnrecognisedTags` | codegenerator.cpp:15-41 | "Input", "Hidden", "Output", "Conv2d", "MaxPool2d" and "dense" are skipped |
| `CodeGen.FactoryTagsRecognised` | codegenerator.cpp:15-38 | of the factory's eleven tags only Dense, LSTM, RNN and Dropout are recognised, so Conv2d, pooling, GRU, batch-norm and Flatten layers emit nothing |
| `CodeGen.LinearInitSpelling` | codegenerator.cpp:16-19 | a Dense line is `self.fc<n> = nn.Linear(<inputSize>, <neurons>)` |
| `CodeGen.ConvInitSpelling` | codegenerator.cpp:21-24 | a Convolutional line is `self.conv<n> = nn.Conv2d(<inputSize>, <neurons>, kernel_size=3)` |
| `CodeGen.PoolInitSpelling` | codegenerator.cpp:26-27 | a Pooling line is `self.pool<n> = nn.MaxPool2d(kernel_size=2)` |
| `CodeGen.LstmInitSpelling` | codegenerator.cpp:29-32 | an LSTM line is `self.lstm<n> = nn.LSTM(<inputSize>, <neurons>)` |
| `CodeGen.RnnInitSpelling` | codegenerator.cpp:34-37 | an RNN line is `self.rnn<n> = nn.RNN(<inputSize>, <neurons>)` |
| `CodeGen.DropInitSpelling` | codegenerator.cpp:39-40 | a Dropout line is `self.dropout<n> = nn.Dropout(p=0.5)` |
| `CodeGen.LinearCallSpelling` | codegenerator.cpp:49 | a Dense call is `x = self.fc<n>(x)` |
| `CodeGen.ConvCallSpelling` | codegenerator.cpp:62 | a Convolutional call is `x = self.conv<n>(x)` |
| `CodeGen.PoolCallSpelling` | codegenerator.cpp:65 | a Pooling call is `x = self.pool<n>(x)` |
| `CodeGen.LstmCallSpelling` | codegenerator.cpp:67 | an LSTM call is `x, _ = self.lstm<n>(x)` |
| `CodeGen.RnnCallSpelling` | codegenerator.cpp:69 | an RNN call is `x, _ = self.rnn<n>(x)` |
| `CodeGen.DropCallSpelling` | codegenerator.cpp:71 | a Dropout call is `x = self.dropout<n>(x)` |
| `CodeGen.InitLineDependsOnSizes` | codegenerator.cpp:15-40 | an `__init__` line depends only on the tag, `inputSize` and `neurons` |
| `CodeGen.ForwardLineDependsOnActivation` | codegenerator.cpp:48-72 | the forward lines depend only on the tag and the activation |
| `CodeGen.FixedArgumentLines` | codegenerator.cpp:25-40 | Pooling and Dropout lines are the same whatever the record's numbers |
| `CodeGen.ActivationEmitted` | codegenerator.cpp:50-59 | an activation line is produced exactly for relu, sigmoid, softmax and tanh; any other value, the empty one included, produces nothing |
| `CodeGen.ActivationOnlyAfterDense` | codegenerator.cpp:48-72 | only a Dense layer's call is followed by an activation line |
| `CodeGen.RecurrentCallsUnpack` | codegenerator.cpp:49-71 | LSTM and RNN calls, and only they, unpack a pair (`x, _ = ...`); the others assign `x = ...` |
| `CodeGen.ExtrasIgnored` | codegenerator.cpp:13-73 | two lists that agree on tag, sizes and activation at every position produce the same program; `filters`, `kernelSize`, `poolingSize` and `units` never matter |
| `CodeGen.SingleLayerCode` | codegenerator.cpp:13-73 | a one-layer list gives the header, that layer's lines at position 1 in both sections, and the trailer |
| `CodeGen.DefaultDenseRecord` | backend.h:12-15 | a record with default fields, tagged Dense, becomes `nn.Linear(128, 1000)` followed by a relu call |
| `LayerJson.ToInt` | backend.cpp:115-119 | `toInt(d)` never invents a number: it gives either `d` or the number stored under the key, and it gives the stored number whenever that is a whole number that fits an `int` |
| `LayerJson.ToBool` | backend.cpp:210-212 | `toBool(d)` gives either `d` or the stored bool, and always the stored bool when the key holds one |
| `LayerJson.ToStr` | backend.cpp:297 | `toString(d)` gives either `d` or the stored string, and always the stored string when the key holds one |
| `LayerJson.ReadDense` | backend.cpp:78-86 | succeeds exactly when "neurons" and "inputSize" are present; each size is the stored `int`, or 0 when the value is not one |
| `LayerJson.ReadConv2d` | backend.cpp:110-121 | succeeds exactly when both channel counts are present; kernel size, stride and padding default to 3, 1 and 0 |
| `LayerJson.ReadMaxPool2d` | backend.cpp:144-149 | always succeeds; kernel size, stride and padding default to 2, 2 and 0 |
| `LayerJson.ReadAvgPool2d` | backend.cpp:171-176 | always succeeds; kernel size, stride and padding default to 2, 2 and 0 |
| `LayerJson.ReadLSTM` | backend.cpp:202-214 | succeeds exactly when "inputSize" and "hiddenSize" are present; numLayers defaults to 1 and the three flags to false |
| `LayerJson.ReadGRU` | backend.cpp:243-255 | as for LSTM |
| `LayerJson.ReadRNN` | backend.cpp:286-299 | as for LSTM, and the activation name is the stored string or "tanh" |
| `LayerJson.ReadBatchNorm1d` | backend.cpp:345-352 | succeeds exactly when "numFeatures" is present; the count is the stored `int` or 0 |
| `LayerJson.ReadBatchNorm2d` | backend.cpp:371-378 | succeeds exactly when "numFeatures" is present; the count is the stored `int` or 0 |
| `LayerJson.ReadFields` | backend.cpp:57-61 | the virtual reader succeeds exactly when every key its class requires is present; the class and the activation are kept |
| `LayerJson.FromJsonObject` | backend.cpp:19-64 | the factory yields a layer exactly when "layerType" is present, names a known class, and every key that class's reader requires is present; the layer then carries the stored tag and an empty activation |
| `LayerJson.New` | backend.cpp:28-53 | the factory builds a layer exactly for the eleven known tags; that layer carries the tag and an empty activation |
| `LayerJson.LayerObject.constructor` | backend.cpp:67-390 | each class's constructor sets its tag, an empty activation and its field defaults, as `New` describes |
| `LayerJson.LayerObject.ReadJson` | backend.cpp:78-397 | each class's reader answers false and assigns nothing when a required key is missing, and otherwise assigns the fields as `ReadFields` says |
| `LayerJson.CreateLayer` | backend.cpp:19-64 | the factory gives null exactly when `FromJsonObject` gives None, and otherwise a fresh layer equal to it |
| `LayerJson.ToJsonObject` | backend.cpp:12-17 | every written object carries the layer's tag under "layerType" and its activation under "activationFunction" |
| `LayerJson.RequiredFieldsRead` | backend.cpp:78-378 | for every class, each required key is present and its field holds the stored `int`, or 0 when the value is a string, a bool, a fraction or an out-of-range number |
| `LayerJson.OutOfRangeRequiredReadsZero` | backend.cpp:78-86 | the presence check lets an out-of-range number through: a Dense object whose sizes do not fit an `int` reads as a layer with both sizes 0 |
| `LayerJson.ReadersThatNeverFail` | backend.cpp:144-397 | MaxPool2d, AvgPool2d, Dropout and Flatten objects always yield a layer |
| `LayerJson.AbsentFieldsDefault` | backend.cpp:117-297 | absent optional fields take their defaults: Conv2d 3/1/0, pooling 2/2/0, recurrent numLayers 1 and all flags false, RNN activation "tanh" |
| `LayerJson.ReadersIgnoreActivation` | backend.cpp:78-397 | no reader looks at "activationFunction": changing it never changes the factory's result |
| `LayerJson.RoundTrip` | backend.cpp:12-397 | reading back what `toJsonObject` writes succeeds for every class and restores every field of the kind, with an empty activation |
| `LayerJson.RoundTripLosesActivation` | backend.cpp:10-17 | the round trip returns the very layer exactly when its activation was already empty |
| `LayerJson.GetType` | backend.cpp:92-403 | every tag is non-empty and holds neither a quote nor a comma, so it sits in a JSON string as it is |
| `LayerJson.GetTypeDistinct` | backend.cpp:92-403 | two layers have the same `getType` tag exactly when they are of the same class |
| `LayerJson.ToJson` | backend.cpp:88-401 | every `toJson` text, of all eleven classes, opens with a "type" member whose value is `getType()` |
| `LayerJson.ToJsonTypeTag` | backend.cpp:88-403 | for all eleven classes, reading the "type" value back out of a `toJson` text gives `getType()` |
| `LayerJson.ToJsonDeterminesType` | backend.cpp:88-403 | equal `toJson` texts, of any classes, come from layers of the same class |
| `LayerJson.RecurrentFlagsInText` | backend.cpp:216-308 | in the LSTM, GRU and RNN texts the value after "batch_first" reads `true` exactly when batchFirst is set, and likewise for "bidirectional" and "return_sequence" |
| `Themes.Lookup` | colorgroup.cpp:25-27 | `value(name)` finds something exactly when some entry has that name, and what it finds is stored under that name |
| `Themes.InsertLookup` | colorgroup.cpp:5-15 | after `insert(name, theme)` the name finds theme and every other name finds what it found before |
| `Themes.InsertEntries` | colorgroup.cpp:5-15 | `insert` adds no entry other than the one it is given |
| `Themes.InsertSorted` | colorgroup.cpp:5-15 | `insert` keeps the keys in ascending order |
| `Themes.FromListSorted` | colorgroup.cpp:5-15 | the map an initializer list builds has its keys in ascending order |
| `Themes.FromListKeys` | colorgroup.cpp:5-15 | a name is found in the map an initializer list builds exactly when the list names it |
| `Themes.ThemeTableContents` | colorgroup.cpp:5-15 | the constructor's table holds exactly Classic, Dark, Ocean and Vibrant with their declared colours, in ascending key order |
| `Themes.ThemeTableSorted` | colorgroup.cpp:5-15 | the table's names strictly ascend, so none occurs twice |
| `Themes.TableLookup` | colorgroup.cpp:5-15 | a lookup finds the palette of each of the four names, and nothing for any other name |
| `Themes.TableValueOr` | colorgroup.cpp:25-27 | in the theme table, the four names give their palettes and any other name gives the fallback |
| `Themes.SelectIdempotent` | colorgroup.cpp:29-33 | selecting the same name twice is the same as selecting it once |
| `Themes.SelectTwice` | colorgroup.cpp:29-33 | after two selections, a known second name alone decides the current palette; an unknown one keeps the first selection's |
| `Themes.ColorGroup.constructor` | colorgroup.cpp:3-19 | a new group holds the theme table, and `currentTheme()` then gives Classic |
| `Themes.ColorGroup.AvailableThemes` | colorgroup.cpp:21-23 | the names are exactly Classic, Dark, Ocean and Vibrant, in that order |
| `Themes.ColorGroup.GetTheme` | colorgroup.cpp:25-27 | a known name gives its table palette, and any other name gives the current palette |
| `Themes.ColorGroup.SetCurrentTheme` | colorgroup.cpp:29-33 | a known name makes its palette what `currentTheme()` gives; an unknown name changes nothing; the table never changes; the new palette is what `getTheme` gave for that name before the call |

## Left out

- `DropoutLayer::dropoutRate` and `NeuralLayer::leakyReluSlope` are `double`s, and floating point is not modelled. The Dropout writer's "dropoutRate" value is an uninterpreted JSON value. The reader's rate is not kept. The slope is rendered as its constructor value, the text `0.01`. No code outside the base constructor sets it.
- LayerJson.ToJson: the Dropout text renders the rate as `0.5`, its constructor value, because the rate a reader assigns is a `double` and is not kept.
- CodeGen.Record: backend.h's `float dropoutRate` is left out, because the generator never reads it. The record takes `activationFunction = "relu"` from backend.h's member initialiser. The only constructor definition in sight, backend.cpp:10, sets `""` instead, so `DefaultDenseRecord`'s relu line holds only if the initialiser is what the record gets.
- Themes.ColorGroup.CurrentTheme: the getter has no contract of its own; the constructor and `SetCurrentTheme` state what it returns.
- LayerJson.ToJson: placeholders are modelled as plain substitution. The Conv2d text fills `%6` with the activation name and then `%7` with the slope. `QString::arg` would also substitute into an activation name that itself contains a `%` placeholder. Names with such text are outside the model.
- LayerJson.ToInt: JSON numbers with a fractional part, `null`, arrays and nested objects are one uninterpreted value (`JOther`). Reading a number that fits an `int` follows `QJsonValue::toInt`. Reading one that does not fit gives the default.
- Themes.Rgb: the alpha channel of `QColor` is left out, because every colour here is opaque.
- `ColorGroup::instance` and `ColorGroup::current` (the singleton) are left out. The model works on one `ColorGroup` object.
- `receiveNetworkStructure`, `receiveProgramFragment`, `returnGeneratedProgram` and `returnNetworkStructure` call `parseNetworkStructure` and `ProgramFragmentProcessor`, which are not part of this model.
- The `qDebug` messages on the error paths are left out.
- Parsing JSON text (`QJsonDocument`) belongs to the library. Objects are given as maps.
- The factory deletes a layer whose reader refused the object. The model drops its reference to that object.
- The GUI is not part of this model: the main window, the canvas, the property panel, the code-generator dialog, `history.json` persistence and the graphics items.
