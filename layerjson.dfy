/**
 * The layer hierarchy of backend.cpp and its JSON form.
 *
 * A layer is its base part (the activation name) and one of eleven kinds,
 * each with the fields its class declares. A JSON object is a map from keys
 * to values. The factory NeuralLayer::fromJsonObject looks at "layerType",
 * builds the matching layer with its constructor defaults and lets that
 * layer's reader fill its fields from the object; a reader that finds a
 * required key missing makes the factory give up.
 */
module LayerJson {
  import opened Common

  // ---------------------------------------------------------------------------
  // JSON values as the readers see them

  /**
   * JNum holds a number with no fractional part; every other number, null,
   * arrays and nested objects are JOther, which no reader interprets.
   */
  datatype JVal = JNum(n: int) | JBool(b: bool) | JStr(s: string) | JOther

  type JObject = map<string, JVal>

  /** `obj.value(key)`: None stands for the undefined value of an absent key. */
  function Get(obj: JObject, key: string): Option<JVal> {
    if key in obj then Some(obj[key]) else None
  }

  /** A value `toInt` accepts: a whole number within the range of int. */
  predicate IsInt(v: Option<JVal>) {
    v.Some? && v.value.JNum? && InInt32(v.value.n)
  }

  /**
   * `QJsonValue::toInt(d)`: never a value that was not stored, and the
   * stored number whenever it is one that fits an int.
   */
  function ToInt(v: Option<JVal>, d: Int32): (r: Int32)
    ensures r == d || v == Some(JNum(r))
    ensures IsInt(v) ==> v == Some(JNum(r))
  {
    match v
    case Some(JNum(n)) => if InInt32(n) then n else d
    case _ => d
  }

  /** `QJsonValue::toBool(d)`: never a value that was not stored, and the stored bool whenever there is one. */
  function ToBool(v: Option<JVal>, d: bool): (r: bool)
    ensures r == d || v == Some(JBool(r))
    ensures v.Some? && v.value.JBool? ==> v == Some(JBool(r))
  {
    match v
    case Some(JBool(b)) => b
    case _ => d
  }

  /** `QJsonValue::toString(d)`: never a value that was not stored, and the stored string whenever there is one. */
  function ToStr(v: Option<JVal>, d: string): (r: string)
    ensures r == d || v == Some(JStr(r))
    ensures v.Some? && v.value.JStr? ==> v == Some(JStr(r))
  {
    match v
    case Some(JStr(s)) => s
    case _ => d
  }

  // ---------------------------------------------------------------------------
  // Layers

  /** One constructor per layer class, with the fields that class declares. */
  datatype Kind =
    | Dense(neurons: Int32, inputSize: Int32)
    | Conv2d(inputChannels: Int32, outputChannels: Int32, kernelSize: Int32, stride: Int32, padding: Int32)
    | MaxPool2d(kernelSize: Int32, stride: Int32, padding: Int32)
    | AvgPool2d(kernelSize: Int32, stride: Int32, padding: Int32)
    | LSTM(inputSize: Int32, hiddenSize: Int32, numLayers: Int32,
           batchFirst: bool, bidirectional: bool, returnSequence: bool)
    | GRU(inputSize: Int32, hiddenSize: Int32, numLayers: Int32,
          batchFirst: bool, bidirectional: bool, returnSequence: bool)
    | RNN(inputSize: Int32, hiddenSize: Int32, numLayers: Int32,
          batchFirst: bool, bidirectional: bool, returnSequence: bool, rnnActivation: string)
    | Dropout
    | BatchNorm1d(numFeatures: Int32)
    | BatchNorm2d(numFeatures: Int32)
    | Flatten

  /** The base-class part (activationFunction) and the kind-specific part. */
  datatype Layer = Layer(activationFunction: string, kind: Kind)

  /** The layerType tag each constructor sets. */
  function TypeName(k: Kind): string {
    match k
    case Dense(_, _) => "Dense"
    case Conv2d(_, _, _, _, _) => "Conv2d"
    case MaxPool2d(_, _, _) => "MaxPool2d"
    case AvgPool2d(_, _, _) => "AvgPool2d"
    case LSTM(_, _, _, _, _, _) => "LSTM"
    case GRU(_, _, _, _, _, _) => "GRU"
    case RNN(_, _, _, _, _, _, _) => "RNN"
    case Dropout => "Dropout"
    case BatchNorm1d(_) => "BatchNorm1d"
    case BatchNorm2d(_) => "BatchNorm2d"
    case Flatten => "Flatten"
  }

  function LayerType(l: Layer): string {
    TypeName(l.kind)
  }

  /** The tags the factory knows. */
  const KnownTypes: set<string> := {
    "Dense", "Conv2d", "MaxPool2d", "AvgPool2d", "LSTM", "GRU", "RNN",
    "Dropout", "BatchNorm1d", "BatchNorm2d", "Flatten"
  }

  /** The factory's `new XLayer()` for a tag: each constructor's defaults, activation "". */
  function New(typeName: string): (r: Option<Layer>)
    ensures r.Some? <==> typeName in KnownTypes
    ensures r.Some? ==> LayerType(r.value) == typeName && r.value.activationFunction == ""
  {
    if typeName == "Dense" then Some(Layer("", Dense(0, 0)))
    else if typeName == "Conv2d" then Some(Layer("", Conv2d(0, 0, 3, 1, 0)))
    else if typeName == "MaxPool2d" then Some(Layer("", MaxPool2d(2, 2, 0)))
    else if typeName == "AvgPool2d" then Some(Layer("", AvgPool2d(2, 2, 0)))
    else if typeName == "LSTM" then Some(Layer("", LSTM(0, 0, 1, false, false, false)))
    else if typeName == "GRU" then Some(Layer("", GRU(0, 0, 1, false, false, false)))
    else if typeName == "RNN" then Some(Layer("", RNN(0, 0, 1, false, false, false, "tanh")))
    else if typeName == "Dropout" then Some(Layer("", Dropout))
    else if typeName == "BatchNorm1d" then Some(Layer("", BatchNorm1d(0)))
    else if typeName == "BatchNorm2d" then Some(Layer("", BatchNorm2d(0)))
    else if typeName == "Flatten" then Some(Layer("", Flatten))
    else None
  }

  // ---------------------------------------------------------------------------
  // Readers: each class's `fromJsonObject`, as the fields it assigns

  /** What a reader assigns from an int-valued key: the number stored there when it fits, else the default. */
  predicate IntField(obj: JObject, key: string, x: int, d: int) {
    if IsInt(Get(obj, key)) then obj[key] == JNum(x) else x == d
  }

  /** What a reader assigns from a bool-valued key: the stored bool, else the default. */
  predicate BoolField(obj: JObject, key: string, b: bool, d: bool) {
    if key in obj && obj[key].JBool? then obj[key] == JBool(b) else b == d
  }

  /** What a reader assigns from a string-valued key: the stored string, else the default. */
  predicate TextField(obj: JObject, key: string, t: string, d: string) {
    if key in obj && obj[key].JStr? then obj[key] == JStr(t) else t == d
  }

  /** DenseLayer::fromJsonObject: both sizes are required. */
  function ReadDense(obj: JObject): (r: Option<Kind>)
    ensures r.Some? <==> "neurons" in obj && "inputSize" in obj
    ensures r.Some? ==>
      r.value.Dense? && IntField(obj, "neurons", r.value.neurons, 0) && IntField(obj, "inputSize", r.value.inputSize, 0)
  {
    if "neurons" !in obj || "inputSize" !in obj then None
    else Some(Dense(ToInt(Get(obj, "neurons"), 0), ToInt(Get(obj, "inputSize"), 0)))
  }

  /** Conv2dLayer::fromJsonObject: the channel counts are required, kernel, stride and padding optional. */
  function ReadConv2d(obj: JObject): (r: Option<Kind>)
    ensures r.Some? <==> "inputChannels" in obj && "outputChannels" in obj
    ensures r.Some? ==> (r.value.Conv2d?
      && IntField(obj, "inputChannels", r.value.inputChannels, 0)
      && IntField(obj, "outputChannels", r.value.outputChannels, 0)
      && IntField(obj, "kernelSize", r.value.kernelSize, 3)
      && IntField(obj, "stride", r.value.stride, 1)
      && IntField(obj, "padding", r.value.padding, 0))
  {
    if "inputChannels" !in obj || "outputChannels" !in obj then None
    else Some(Conv2d(
      ToInt(Get(obj, "inputChannels"), 0), ToInt(Get(obj, "outputChannels"), 0),
      ToInt(Get(obj, "kernelSize"), 3), ToInt(Get(obj, "stride"), 1), ToInt(Get(obj, "padding"), 0)))
  }

  /** MaxPool2dLayer::fromJsonObject: everything optional. */
  function ReadMaxPool2d(obj: JObject): (k: Kind)
    ensures k.MaxPool2d?
      && IntField(obj, "kernelSize", k.kernelSize, 2) && IntField(obj, "stride", k.stride, 2)
      && IntField(obj, "padding", k.padding, 0)
  {
    MaxPool2d(ToInt(Get(obj, "kernelSize"), 2), ToInt(Get(obj, "stride"), 2), ToInt(Get(obj, "padding"), 0))
  }

  /** AvgPool2dLayer::fromJsonObject: everything optional. */
  function ReadAvgPool2d(obj: JObject): (k: Kind)
    ensures k.AvgPool2d?
      && IntField(obj, "kernelSize", k.kernelSize, 2) && IntField(obj, "stride", k.stride, 2)
      && IntField(obj, "padding", k.padding, 0)
  {
    AvgPool2d(ToInt(Get(obj, "kernelSize"), 2), ToInt(Get(obj, "stride"), 2), ToInt(Get(obj, "padding"), 0))
  }

  /** The six fields the LSTM, GRU and RNN readers share, each read from its key with its default. */
  predicate RecurrentFields(obj: JObject, k: Kind)
    requires k.LSTM? || k.GRU? || k.RNN?
  {
    && IntField(obj, "inputSize", k.inputSize, 0) && IntField(obj, "hiddenSize", k.hiddenSize, 0)
    && IntField(obj, "numLayers", k.numLayers, 1)
    && BoolField(obj, "batchFirst", k.batchFirst, false) && BoolField(obj, "bidirectional", k.bidirectional, false)
    && BoolField(obj, "returnSequence", k.returnSequence, false)
  }

  /** LSTMLayer::fromJsonObject: the sizes are required, the rest optional. */
  function ReadLSTM(obj: JObject): (r: Option<Kind>)
    ensures r.Some? <==> "inputSize" in obj && "hiddenSize" in obj
    ensures r.Some? ==> r.value.LSTM? && RecurrentFields(obj, r.value)
  {
    if "inputSize" !in obj || "hiddenSize" !in obj then None
    else Some(LSTM(
      ToInt(Get(obj, "inputSize"), 0), ToInt(Get(obj, "hiddenSize"), 0), ToInt(Get(obj, "numLayers"), 1),
      ToBool(Get(obj, "batchFirst"), false), ToBool(Get(obj, "bidirectional"), false),
      ToBool(Get(obj, "returnSequence"), false)))
  }

  /** GRULayer::fromJsonObject: as for LSTM. */
  function ReadGRU(obj: JObject): (r: Option<Kind>)
    ensures r.Some? <==> "inputSize" in obj && "hiddenSize" in obj
    ensures r.Some? ==> r.value.GRU? && RecurrentFields(obj, r.value)
  {
    if "inputSize" !in obj || "hiddenSize" !in obj then None
    else Some(GRU(
      ToInt(Get(obj, "inputSize"), 0), ToInt(Get(obj, "hiddenSize"), 0), ToInt(Get(obj, "numLayers"), 1),
      ToBool(Get(obj, "batchFirst"), false), ToBool(Get(obj, "bidirectional"), false),
      ToBool(Get(obj, "returnSequence"), false)))
  }

  /** RNNLayer::fromJsonObject: as for LSTM, plus the activation name. */
  function ReadRNN(obj: JObject): (r: Option<Kind>)
    ensures r.Some? <==> "inputSize" in obj && "hiddenSize" in obj
    ensures r.Some? ==>
      r.value.RNN? && RecurrentFields(obj, r.value) && TextField(obj, "rnnActivation", r.value.rnnActivation, "tanh")
  {
    if "inputSize" !in obj || "hiddenSize" !in obj then None
    else Some(RNN(
      ToInt(Get(obj, "inputSize"), 0), ToInt(Get(obj, "hiddenSize"), 0), ToInt(Get(obj, "numLayers"), 1),
      ToBool(Get(obj, "batchFirst"), false), ToBool(Get(obj, "bidirectional"), false),
      ToBool(Get(obj, "returnSequence"), false), ToStr(Get(obj, "rnnActivation"), "tanh")))
  }

  /** BatchNorm1dLayer::fromJsonObject: the feature count is required. */
  function ReadBatchNorm1d(obj: JObject): (r: Option<Kind>)
    ensures r.Some? <==> "numFeatures" in obj
    ensures r.Some? ==> r.value.BatchNorm1d? && IntField(obj, "numFeatures", r.value.numFeatures, 0)
  {
    if "numFeatures" !in obj then None else Some(BatchNorm1d(ToInt(Get(obj, "numFeatures"), 0)))
  }

  /** BatchNorm2dLayer::fromJsonObject: the feature count is required. */
  function ReadBatchNorm2d(obj: JObject): (r: Option<Kind>)
    ensures r.Some? <==> "numFeatures" in obj
    ensures r.Some? ==> r.value.BatchNorm2d? && IntField(obj, "numFeatures", r.value.numFeatures, 0)
  {
    if "numFeatures" !in obj then None else Some(BatchNorm2d(ToInt(Get(obj, "numFeatures"), 0)))
  }

  /** A reader's outcome applied to the layer: None (false, nothing assigned) or the new kind part. */
  function Assign(self: Layer, read: Option<Kind>): Option<Layer> {
    match read
    case None => None
    case Some(k) => Some(self.(kind := k))
  }

  /**
   * The virtual `fromJsonObject` of the layer `self`: None when it returns
   * false, otherwise the layer with the fields it assigned. No reader
   * touches activationFunction, and the Dropout and Flatten readers assign
   * nothing the model keeps.
   */
  function ReadFields(self: Layer, obj: JObject): (r: Option<Layer>)
    ensures r.Some? <==> RequiredKeys(LayerType(self)) <= obj.Keys
    ensures r.Some? ==> LayerType(r.value) == LayerType(self) && r.value.activationFunction == self.activationFunction
  {
    match self.kind
    case Dense(_, _) => Assign(self, ReadDense(obj))
    case Conv2d(_, _, _, _, _) => Assign(self, ReadConv2d(obj))
    case MaxPool2d(_, _, _) => Some(self.(kind := ReadMaxPool2d(obj)))
    case AvgPool2d(_, _, _) => Some(self.(kind := ReadAvgPool2d(obj)))
    case LSTM(_, _, _, _, _, _) => Assign(self, ReadLSTM(obj))
    case GRU(_, _, _, _, _, _) => Assign(self, ReadGRU(obj))
    case RNN(_, _, _, _, _, _, _) => Assign(self, ReadRNN(obj))
    case Dropout => Some(self)
    case BatchNorm1d(_) => Assign(self, ReadBatchNorm1d(obj))
    case BatchNorm2d(_) => Assign(self, ReadBatchNorm2d(obj))
    case Flatten => Some(self)
  }

  /**
   * NeuralLayer::fromJsonObject, the factory; None is its null result. It
   * yields a layer exactly when "layerType" is present, names one of the
   * eleven classes, and every key that class's reader requires is present;
   * the layer then carries that tag and an empty activation.
   */
  function FromJsonObject(obj: JObject): (r: Option<Layer>)
    ensures r.Some? <==> "layerType" in obj && TagOf(obj) in KnownTypes && RequiredKeys(TagOf(obj)) <= obj.Keys
    ensures r.Some? ==> obj["layerType"] == JStr(LayerType(r.value)) && r.value.activationFunction == ""
  {
    if "layerType" !in obj then None
    else
      match New(ToStr(Get(obj, "layerType"), ""))
      case None => None
      case Some(created) => ReadFields(created, obj)
  }

  // ---------------------------------------------------------------------------
  // The same readers and factory on heap objects

  /** A layer object: its readers assign its fields in place. */
  class LayerObject {
    var activationFunction: string
    var kind: Kind

    function Value(): Layer
      reads this
    {
      Layer(activationFunction, kind)
    }

    /** `new XLayer()` for the class the tag names: that class's defaults and an empty activation. */
    constructor (typeName: string)
      requires typeName in KnownTypes
      ensures Some(Value()) == New(typeName)
    {
      activationFunction := "";
      if typeName == "Dense" {
        kind := Dense(0, 0);
      } else if typeName == "Conv2d" {
        kind := Conv2d(0, 0, 3, 1, 0);
      } else if typeName == "MaxPool2d" {
        kind := MaxPool2d(2, 2, 0);
      } else if typeName == "AvgPool2d" {
        kind := AvgPool2d(2, 2, 0);
      } else if typeName == "LSTM" {
        kind := LSTM(0, 0, 1, false, false, false);
      } else if typeName == "GRU" {
        kind := GRU(0, 0, 1, false, false, false);
      } else if typeName == "RNN" {
        kind := RNN(0, 0, 1, false, false, false, "tanh");
      } else if typeName == "Dropout" {
        kind := Dropout;
      } else if typeName == "BatchNorm1d" {
        kind := BatchNorm1d(0);
      } else if typeName == "BatchNorm2d" {
        kind := BatchNorm2d(0);
      } else {
        kind := Flatten;
      }
    }

    /**
     * The virtual `fromJsonObject`: false, with nothing assigned, when a
     * required key is missing; otherwise each field in turn.
     */
    method ReadJson(obj: JObject) returns (ok: bool)
      modifies this
      ensures ok <==> ReadFields(old(Value()), obj).Some?
      ensures Value() == if ok then ReadFields(old(Value()), obj).value else old(Value())
    {
      match kind {
        case Dense(_, _) =>
          if "neurons" !in obj || "inputSize" !in obj {
            return false;
          }
          kind := Dense(ToInt(Get(obj, "neurons"), 0), ToInt(Get(obj, "inputSize"), 0));
        case Conv2d(_, _, _, _, _) =>
          if "inputChannels" !in obj || "outputChannels" !in obj {
            return false;
          }
          kind := Conv2d(ToInt(Get(obj, "inputChannels"), 0), ToInt(Get(obj, "outputChannels"), 0),
                         ToInt(Get(obj, "kernelSize"), 3), ToInt(Get(obj, "stride"), 1), ToInt(Get(obj, "padding"), 0));
        case MaxPool2d(_, _, _) =>
          kind := MaxPool2d(ToInt(Get(obj, "kernelSize"), 2), ToInt(Get(obj, "stride"), 2), ToInt(Get(obj, "padding"), 0));
        case AvgPool2d(_, _, _) =>
          kind := AvgPool2d(ToInt(Get(obj, "kernelSize"), 2), ToInt(Get(obj, "stride"), 2), ToInt(Get(obj, "padding"), 0));
        case LSTM(_, _, _, _, _, _) =>
          if "inputSize" !in obj || "hiddenSize" !in obj {
            return false;
          }
          var insz, hs, nl, bf, bd, rs := ReadRecurrent(obj);
          kind := LSTM(insz, hs, nl, bf, bd, rs);
        case GRU(_, _, _, _, _, _) =>
          if "inputSize" !in obj || "hiddenSize" !in obj {
            return false;
          }
          var insz, hs, nl, bf, bd, rs := ReadRecurrent(obj);
          kind := GRU(insz, hs, nl, bf, bd, rs);
        case RNN(_, _, _, _, _, _, _) =>
          if "inputSize" !in obj || "hiddenSize" !in obj {
            return false;
          }
          var insz, hs, nl, bf, bd, rs := ReadRecurrent(obj);
          kind := RNN(insz, hs, nl, bf, bd, rs, ToStr(Get(obj, "rnnActivation"), "tanh"));
        case Dropout =>
        case BatchNorm1d(_) =>
          if "numFeatures" !in obj {
            return false;
          }
          kind := BatchNorm1d(ToInt(Get(obj, "numFeatures"), 0));
        case BatchNorm2d(_) =>
          if "numFeatures" !in obj {
            return false;
          }
          kind := BatchNorm2d(ToInt(Get(obj, "numFeatures"), 0));
        case Flatten =>
      }
      return true;
    }
  }

  /** The six values the LSTM, GRU and RNN readers share, with their defaults. */
  method ReadRecurrent(obj: JObject) returns (inputSize: Int32, hiddenSize: Int32, numLayers: Int32,
                                              batchFirst: bool, bidirectional: bool, returnSequence: bool)
    ensures (inputSize, hiddenSize, numLayers, batchFirst, bidirectional, returnSequence) == (
      ToInt(Get(obj, "inputSize"), 0), ToInt(Get(obj, "hiddenSize"), 0), ToInt(Get(obj, "numLayers"), 1),
      ToBool(Get(obj, "batchFirst"), false), ToBool(Get(obj, "bidirectional"), false),
      ToBool(Get(obj, "returnSequence"), false))
  {
    inputSize := ToInt(Get(obj, "inputSize"), 0);
    hiddenSize := ToInt(Get(obj, "hiddenSize"), 0);
    numLayers := ToInt(Get(obj, "numLayers"), 1);
    batchFirst := ToBool(Get(obj, "batchFirst"), false);
    bidirectional := ToBool(Get(obj, "bidirectional"), false);
    returnSequence := ToBool(Get(obj, "returnSequence"), false);
  }

  /**
   * NeuralLayer::fromJsonObject on the heap: a fresh object, or null when
   * the tag is missing or unknown or the reader refuses the object (the
   * object is then dropped, which stands for its deletion).
   */
  method CreateLayer(obj: JObject) returns (layer: LayerObject?)
    ensures layer == null <==> FromJsonObject(obj).None?
    ensures layer != null ==> fresh(layer) && Some(layer.Value()) == FromJsonObject(obj)
  {
    if "layerType" !in obj {
      return null;
    }
    var typeName := ToStr(Get(obj, "layerType"), "");
    if typeName !in KnownTypes {
      return null;
    }
    layer := new LayerObject(typeName);
    var ok := layer.ReadJson(obj);
    if !ok {
      layer := null;
    }
  }

  // ---------------------------------------------------------------------------
  // Writers

  function BaseObject(l: Layer): JObject {
    map["layerType" := JStr(LayerType(l)), "activationFunction" := JStr(l.activationFunction)]
  }

  /** The keys a kind's writer adds to the base object. */
  function FieldObject(k: Kind): JObject {
    match k
    case Dense(neurons, inputSize) =>
      map["neurons" := JNum(neurons), "inputSize" := JNum(inputSize)]
    case Conv2d(ic, oc, ks, st, pd) =>
      map["inputChannels" := JNum(ic), "outputChannels" := JNum(oc),
          "kernelSize" := JNum(ks), "stride" := JNum(st), "padding" := JNum(pd)]
    case MaxPool2d(ks, st, pd) =>
      map["kernelSize" := JNum(ks), "stride" := JNum(st), "padding" := JNum(pd)]
    case AvgPool2d(ks, st, pd) =>
      map["kernelSize" := JNum(ks), "stride" := JNum(st), "padding" := JNum(pd)]
    case LSTM(insz, hs, nl, bf, bd, rs) =>
      map["inputSize" := JNum(insz), "hiddenSize" := JNum(hs), "numLayers" := JNum(nl),
          "batchFirst" := JBool(bf), "bidirectional" := JBool(bd), "returnSequence" := JBool(rs)]
    case GRU(insz, hs, nl, bf, bd, rs) =>
      map["inputSize" := JNum(insz), "hiddenSize" := JNum(hs), "numLayers" := JNum(nl),
          "batchFirst" := JBool(bf), "bidirectional" := JBool(bd), "returnSequence" := JBool(rs)]
    case RNN(insz, hs, nl, bf, bd, rs, act) =>
      map["inputSize" := JNum(insz), "hiddenSize" := JNum(hs), "numLayers" := JNum(nl),
          "batchFirst" := JBool(bf), "bidirectional" := JBool(bd), "returnSequence" := JBool(rs),
          "rnnActivation" := JStr(act)]
    case Dropout =>
      // dropoutRate is a double, which the model does not interpret
      map["dropoutRate" := JOther]
    case BatchNorm1d(nf) => map["numFeatures" := JNum(nf)]
    case BatchNorm2d(nf) => map["numFeatures" := JNum(nf)]
    case Flatten => map[]
  }

  /** `toJsonObject`: the base keys, then the kind's own keys. */
  function ToJsonObject(l: Layer): (obj: JObject)
    ensures "layerType" in obj && obj["layerType"] == JStr(LayerType(l))
    ensures "activationFunction" in obj && obj["activationFunction"] == JStr(l.activationFunction)
  {
    BaseObject(l) + FieldObject(l.kind)
  }

  /** The lowercase tag `getType` returns; it holds no quote, so it sits in a JSON string as it is. */
  function GetType(l: Layer): (t: string)
    ensures t != [] && '"' !in t && ',' !in t
  {
    match l.kind
    case Dense(_, _) => "dense"
    case Conv2d(_, _, _, _, _) => "conv2d"
    case MaxPool2d(_, _, _) => "maxpool2d"
    case AvgPool2d(_, _, _) => "avgpool2d"
    case LSTM(_, _, _, _, _, _) => "lstm"
    case GRU(_, _, _, _, _, _) => "gru"
    case RNN(_, _, _, _, _, _, _) => "rnn"
    case Dropout => "dropout"
    case BatchNorm1d(_) => "batchnorm1d"
    case BatchNorm2d(_) => "batchnorm2d"
    case Flatten => "flatten"
  }

  /** The text a C++ bool renders as through `b ? "true" : "false"`. */
  function BoolText(b: bool): (s: string)
    ensures s == "true" || s == "false"
    ensures s == "true" <==> b
  {
    if b then "true" else "false"
  }

  /** What `QString::arg(double)` renders for leakyReluSlope, which only the base constructor sets (0.01). */
  const LeakyReluSlopeText: string := "0.01"

  /** What `QString::arg(double)` renders for the dropout rate the constructor sets (0.5). */
  const DropoutRateText: string := "0.5"

  /** The opening of every `toJson` text: the "type" member with the given tag. */
  function TypeOpen(tag: string): string {
    "{\"type\":\"" + tag + "\""
  }

  /** The members after "type" that the LSTM, GRU and RNN texts share, then the class's own ending. */
  function RecurrentMembers(insz: Int32, hs: Int32, nl: Int32, bf: bool, bd: bool, rs: bool, ending: string): string {
    InputSizeKey + (IntToDecimal(insz)
    + (HiddenSizeKey + (IntToDecimal(hs)
    + (NumLayersKey + (IntToDecimal(nl)
    + (BatchFirstKey + (BoolText(bf)
    + (BidirectionalKey + (BoolText(bd)
    + (ReturnSequenceKey + (BoolText(rs) + ending)))))))))))
  }

  /** The members after "type" that the two pooling texts share. */
  function PoolMembers(ks: Int32, st: Int32, pd: Int32): string {
    ",\"kernel_size\":" + IntToDecimal(ks)
    + ",\"stride\":" + IntToDecimal(st)
    + ",\"padding\":" + IntToDecimal(pd) + "}"
  }

  /** The Conv2d members after "type", up to and including the opening quote of the activation value. */
  function Conv2dMembersLead(ic: Int32, oc: Int32, ks: Int32, st: Int32, pd: Int32): string {
    ",\"input_channels\":" + IntToDecimal(ic)
    + ",\"output_channels\":" + IntToDecimal(oc)
    + ",\"kernel_size\":" + IntToDecimal(ks)
    + ",\"stride\":" + IntToDecimal(st)
    + ",\"padding\":" + IntToDecimal(pd)
    + ",\"activation\":\""
  }

  /**
   * The hand-built `toJson` text, each placeholder replaced by its value: a
   * JSON object whose first member is "type" with the `getType` tag.
   */
  function ToJson(l: Layer): (s: string)
    ensures TypeOpen(GetType(l)) <= s
  {
    var open := TypeOpen(GetType(l));
    assert (open + MembersText(l))[..|open|] == open;
    open + MembersText(l)
  }

  /** The `toJson` text after the "type" member. */
  function MembersText(l: Layer): string {
    match l.kind
    case Dense(neurons, _) =>
      ",\"neurons\":" + IntToDecimal(neurons) + ",\"activation\":\"" + l.activationFunction + "\"}"
    case Conv2d(ic, oc, ks, st, pd) =>
      Conv2dMembersLead(ic, oc, ks, st, pd) + l.activationFunction
      + "\",\"leaky_relu_slope\":" + LeakyReluSlopeText + "}"
    case MaxPool2d(ks, st, pd) => PoolMembers(ks, st, pd)
    case AvgPool2d(ks, st, pd) => PoolMembers(ks, st, pd)
    case LSTM(insz, hs, nl, bf, bd, rs) => RecurrentMembers(insz, hs, nl, bf, bd, rs, "}")
    case GRU(insz, hs, nl, bf, bd, rs) => RecurrentMembers(insz, hs, nl, bf, bd, rs, "}")
    case RNN(insz, hs, nl, bf, bd, rs, act) =>
      RecurrentMembers(insz, hs, nl, bf, bd, rs, ",\"rnn_activation\":\"" + act + "\"}")
    case Dropout => ",\"dropout_rate\":" + DropoutRateText + "}"
    case BatchNorm1d(nf) => ",\"num_features\":" + IntToDecimal(nf) + "}"
    case BatchNorm2d(nf) => ",\"num_features\":" + IntToDecimal(nf) + "}"
    case Flatten => "}"
  }

  // ---------------------------------------------------------------------------
  // The factory's failure conditions and defaults

  /** The keys a kind's reader insists on. */
  function RequiredKeys(typeName: string): set<string> {
    if typeName == "Dense" then {"neurons", "inputSize"}
    else if typeName == "Conv2d" then {"inputChannels", "outputChannels"}
    else if typeName in {"LSTM", "GRU", "RNN"} then {"inputSize", "hiddenSize"}
    else if typeName in {"BatchNorm1d", "BatchNorm2d"} then {"numFeatures"}
    else {}
  }

  /** The tag the factory dispatches on: the string under "layerType", or "" for any other value. */
  function TagOf(obj: JObject): string {
    ToStr(Get(obj, "layerType"), "")
  }

  /** MaxPool2d, AvgPool2d, Dropout and Flatten readers never fail. */
  lemma ReadersThatNeverFail(obj: JObject)
    requires "layerType" in obj
    requires obj["layerType"] == JStr("MaxPool2d") || obj["layerType"] == JStr("AvgPool2d")
          || obj["layerType"] == JStr("Dropout") || obj["layerType"] == JStr("Flatten")
    ensures FromJsonObject(obj).Some?
  {
  }

  /** Optional fields that are absent take the constructor's default. */
  lemma AbsentFieldsDefault(obj: JObject)
    requires FromJsonObject(obj).Some?
    ensures var k := FromJsonObject(obj).value.kind;
      && (k.Conv2d? ==>
            ("kernelSize" !in obj ==> k.kernelSize == 3) &&
            ("stride" !in obj ==> k.stride == 1) &&
            ("padding" !in obj ==> k.padding == 0))
      && ((k.MaxPool2d? || k.AvgPool2d?) ==>
            ("kernelSize" !in obj ==> k.kernelSize == 2) &&
            ("stride" !in obj ==> k.stride == 2) &&
            ("padding" !in obj ==> k.padding == 0))
      && ((k.LSTM? || k.GRU? || k.RNN?) ==>
            ("numLayers" !in obj ==> k.numLayers == 1) &&
            ("batchFirst" !in obj ==> !k.batchFirst) &&
            ("bidirectional" !in obj ==> !k.bidirectional) &&
            ("returnSequence" !in obj ==> !k.returnSequence))
      && (k.RNN? ==> ("rnnActivation" !in obj ==> k.rnnActivation == "tanh"))
  {
  }

  /**
   * A required field holds the whole number stored under its key when it
   * fits an int, and 0 otherwise: the presence check lets through a key whose
   * value is a string, a bool, a fraction or an out-of-range number.
   */
  lemma RequiredFieldsRead(obj: JObject)
    requires FromJsonObject(obj).Some?
    ensures var k := FromJsonObject(obj).value.kind;
      && (k.Dense? ==>
            "neurons" in obj && IntField(obj, "neurons", k.neurons, 0) &&
            "inputSize" in obj && IntField(obj, "inputSize", k.inputSize, 0))
      && (k.Conv2d? ==>
            "inputChannels" in obj && IntField(obj, "inputChannels", k.inputChannels, 0) &&
            "outputChannels" in obj && IntField(obj, "outputChannels", k.outputChannels, 0))
      && ((k.LSTM? || k.GRU? || k.RNN?) ==>
            "inputSize" in obj && IntField(obj, "inputSize", k.inputSize, 0) &&
            "hiddenSize" in obj && IntField(obj, "hiddenSize", k.hiddenSize, 0))
      && ((k.BatchNorm1d? || k.BatchNorm2d?) ==>
            "numFeatures" in obj && IntField(obj, "numFeatures", k.numFeatures, 0))
  {
    var created := New(TagOf(obj)).value;
    assert FromJsonObject(obj) == ReadFields(created, obj);
  }

  /** The case the presence check does not catch: a required number that is out of range reads as 0. */
  lemma OutOfRangeRequiredReadsZero(obj: JObject, n: int)
    requires obj == map["layerType" := JStr("Dense"), "neurons" := JNum(n), "inputSize" := JNum(n)]
    requires !InInt32(n)
    ensures FromJsonObject(obj) == Some(Layer("", Dense(0, 0)))
  {
    assert TagOf(obj) == "Dense";
  }

  /** No reader looks at "activationFunction". */
  lemma ReadersIgnoreActivation(obj: JObject, v: JVal)
    ensures FromJsonObject(obj["activationFunction" := v]) == FromJsonObject(obj)
  {
    var obj' := obj["activationFunction" := v];
    assert Get(obj', "layerType") == Get(obj, "layerType");
    if "layerType" in obj && New(TagOf(obj)).Some? {
      ReadFieldsIgnoreActivation(New(TagOf(obj)).value, obj, v);
    }
  }

  lemma ReadFieldsIgnoreActivation(self: Layer, obj: JObject, v: JVal)
    ensures ReadFields(self, obj["activationFunction" := v]) == ReadFields(self, obj)
  {
    var obj' := obj["activationFunction" := v];
    match self.kind
    case Dense(_, _) => ReadersIgnoreActivationA(obj, v);
    case Conv2d(_, _, _, _, _) => ReadersIgnoreActivationA(obj, v);
    case MaxPool2d(_, _, _) => ReadersIgnoreActivationA(obj, v);
    case AvgPool2d(_, _, _) => ReadersIgnoreActivationA(obj, v);
    case LSTM(_, _, _, _, _, _) => ReadersIgnoreActivationB(obj, v);
    case GRU(_, _, _, _, _, _) => ReadersIgnoreActivationB(obj, v);
    case RNN(_, _, _, _, _, _, _) => ReadersIgnoreActivationB(obj, v);
    case Dropout =>
    case BatchNorm1d(_) => ReadersIgnoreActivationA(obj, v);
    case BatchNorm2d(_) => ReadersIgnoreActivationA(obj, v);
    case Flatten =>
  }

  lemma SameOtherKeys(obj: JObject, v: JVal, k: string)
    requires k != "activationFunction"
    ensures (k in obj["activationFunction" := v] <==> k in obj)
    ensures Get(obj["activationFunction" := v], k) == Get(obj, k)
  {
  }

  lemma ReadersIgnoreActivationA(obj: JObject, v: JVal)
    ensures var obj' := obj["activationFunction" := v];
      && ReadDense(obj') == ReadDense(obj)
      && ReadConv2d(obj') == ReadConv2d(obj)
      && ReadMaxPool2d(obj') == ReadMaxPool2d(obj)
      && ReadAvgPool2d(obj') == ReadAvgPool2d(obj)
      && ReadBatchNorm1d(obj') == ReadBatchNorm1d(obj)
      && ReadBatchNorm2d(obj') == ReadBatchNorm2d(obj)
  {
    SameOtherKeys(obj, v, "neurons");
    SameOtherKeys(obj, v, "inputSize");
    SameOtherKeys(obj, v, "inputChannels");
    SameOtherKeys(obj, v, "outputChannels");
    SameOtherKeys(obj, v, "kernelSize");
    SameOtherKeys(obj, v, "stride");
    SameOtherKeys(obj, v, "padding");
    SameOtherKeys(obj, v, "numFeatures");
  }

  lemma ReadersIgnoreActivationB(obj: JObject, v: JVal)
    ensures var obj' := obj["activationFunction" := v];
      && ReadLSTM(obj') == ReadLSTM(obj)
      && ReadGRU(obj') == ReadGRU(obj)
      && ReadRNN(obj') == ReadRNN(obj)
  {
    SameOtherKeys(obj, v, "inputSize");
    SameOtherKeys(obj, v, "hiddenSize");
    SameOtherKeys(obj, v, "numLayers");
    SameOtherKeys(obj, v, "batchFirst");
    SameOtherKeys(obj, v, "bidirectional");
    SameOtherKeys(obj, v, "returnSequence");
    SameOtherKeys(obj, v, "rnnActivation");
  }

  // ---------------------------------------------------------------------------
  // Round trip

  /** Reading back what a layer writes restores its kind and every field of it, but not the activation. */
  lemma RoundTrip(l: Layer)
    ensures FromJsonObject(ToJsonObject(l)) == Some(Layer("", l.kind))
  {
    var obj := ToJsonObject(l);
    assert TagOf(obj) == TypeName(l.kind);
    NewOfTypeName(l.kind);
    ReadBack(l);
  }

  /** The layer the factory's constructor call builds for the class of k. */
  function Fresh(k: Kind): Layer {
    match k
    case Dense(_, _) => Layer("", Dense(0, 0))
    case Conv2d(_, _, _, _, _) => Layer("", Conv2d(0, 0, 3, 1, 0))
    case MaxPool2d(_, _, _) => Layer("", MaxPool2d(2, 2, 0))
    case AvgPool2d(_, _, _) => Layer("", AvgPool2d(2, 2, 0))
    case LSTM(_, _, _, _, _, _) => Layer("", LSTM(0, 0, 1, false, false, false))
    case GRU(_, _, _, _, _, _) => Layer("", GRU(0, 0, 1, false, false, false))
    case RNN(_, _, _, _, _, _, _) => Layer("", RNN(0, 0, 1, false, false, false, "tanh"))
    case Dropout => Layer("", Dropout)
    case BatchNorm1d(_) => Layer("", BatchNorm1d(0))
    case BatchNorm2d(_) => Layer("", BatchNorm2d(0))
    case Flatten => Layer("", Flatten)
  }

  lemma NewOfTypeName(k: Kind)
    ensures New(TypeName(k)) == Some(Fresh(k))
  {
  }

  /** A key a kind's writer adds is read back with the value written. */
  lemma WrittenField(l: Layer, key: string)
    requires key in FieldObject(l.kind)
    ensures key in ToJsonObject(l) && Get(ToJsonObject(l), key) == Some(FieldObject(l.kind)[key])
  {
  }

  /** A reader given what `toJsonObject` wrote sets every field it declares to the written value. */
  lemma ReadBack(l: Layer)
    ensures ReadFields(Fresh(l.kind), ToJsonObject(l)) == Some(Layer("", l.kind))
  {
    match l.kind
    case Dense(_, _) => ReadBackSized(l);
    case Conv2d(_, _, _, _, _) => ReadBackSized(l);
    case MaxPool2d(_, _, _) => ReadBackPool(l);
    case AvgPool2d(_, _, _) => ReadBackPool(l);
    case LSTM(_, _, _, _, _, _) => ReadBackRecurrent(l);
    case GRU(_, _, _, _, _, _) => ReadBackRecurrent(l);
    case RNN(_, _, _, _, _, _, _) => ReadBackRecurrent(l);
    case Dropout =>
    case BatchNorm1d(_) => ReadBackSized(l);
    case BatchNorm2d(_) => ReadBackSized(l);
    case Flatten =>
  }

  lemma ReadBackSized(l: Layer)
    ensures l.kind.Dense? ==> ReadDense(ToJsonObject(l)) == Some(l.kind)
    ensures l.kind.Conv2d? ==> ReadConv2d(ToJsonObject(l)) == Some(l.kind)
    ensures l.kind.BatchNorm1d? ==> ReadBatchNorm1d(ToJsonObject(l)) == Some(l.kind)
    ensures l.kind.BatchNorm2d? ==> ReadBatchNorm2d(ToJsonObject(l)) == Some(l.kind)
  {
    match l.kind
    case Dense(_, _) =>
      WrittenField(l, "neurons");
      WrittenField(l, "inputSize");
    case Conv2d(_, _, _, _, _) =>
      WrittenField(l, "inputChannels");
      WrittenField(l, "outputChannels");
      WrittenField(l, "kernelSize");
      WrittenField(l, "stride");
      WrittenField(l, "padding");
    case BatchNorm1d(_) =>
      WrittenField(l, "numFeatures");
    case BatchNorm2d(_) =>
      WrittenField(l, "numFeatures");
    case _ =>
  }

  lemma ReadBackPool(l: Layer)
    requires l.kind.MaxPool2d? || l.kind.AvgPool2d?
    ensures l.kind.MaxPool2d? ==> ReadMaxPool2d(ToJsonObject(l)) == l.kind
    ensures l.kind.AvgPool2d? ==> ReadAvgPool2d(ToJsonObject(l)) == l.kind
  {
    WrittenField(l, "kernelSize");
    WrittenField(l, "stride");
    WrittenField(l, "padding");
  }

  lemma ReadBackRecurrent(l: Layer)
    requires l.kind.LSTM? || l.kind.GRU? || l.kind.RNN?
    ensures l.kind.LSTM? ==> ReadLSTM(ToJsonObject(l)) == Some(l.kind)
    ensures l.kind.GRU? ==> ReadGRU(ToJsonObject(l)) == Some(l.kind)
    ensures l.kind.RNN? ==> ReadRNN(ToJsonObject(l)) == Some(l.kind)
  {
    RecurrentWritten(l);
    if l.kind.RNN? {
      WrittenField(l, "rnnActivation");
    }
  }

  lemma RecurrentWritten(l: Layer)
    requires l.kind.LSTM? || l.kind.GRU? || l.kind.RNN?
    ensures var obj := ToJsonObject(l);
      && "inputSize" in obj && "hiddenSize" in obj
      && Get(obj, "inputSize") == Some(JNum(l.kind.inputSize))
      && Get(obj, "hiddenSize") == Some(JNum(l.kind.hiddenSize))
      && Get(obj, "numLayers") == Some(JNum(l.kind.numLayers))
      && Get(obj, "batchFirst") == Some(JBool(l.kind.batchFirst))
      && Get(obj, "bidirectional") == Some(JBool(l.kind.bidirectional))
      && Get(obj, "returnSequence") == Some(JBool(l.kind.returnSequence))
  {
    WrittenField(l, "inputSize");
    WrittenField(l, "hiddenSize");
    WrittenField(l, "numLayers");
    WrittenField(l, "batchFirst");
    WrittenField(l, "bidirectional");
    WrittenField(l, "returnSequence");
  }

  /** The round trip returns the very layer exactly when its activation was already empty. */
  lemma RoundTripLosesActivation(l: Layer)
    ensures FromJsonObject(ToJsonObject(l)) == Some(l) <==> l.activationFunction == ""
  {
    RoundTrip(l);
  }

  // ---------------------------------------------------------------------------
  // toJson and getType

  /** The text before the first quote: how a reader takes a string value out of the text. */
  function UpToQuote(u: string): (w: string)
    ensures '"' !in w && w <= u
  {
    if u == [] || u[0] == '"' then [] else [u[0]] + UpToQuote(u[1..])
  }

  /** A quote-free word followed by a quote is read back whole. */
  lemma {:induction false} UpToQuoteReadsWord(t: string, rest: string)
    requires '"' !in t
    ensures UpToQuote(t + "\"" + rest) == t
  {
    if t != [] {
      assert (t + "\"" + rest)[1..] == t[1..] + "\"" + rest;
      UpToQuoteReadsWord(t[1..], rest);
    }
  }

  /** The "type" value read back out of a toJson text; "" when the text does not open as toJson's do. */
  function JsonTypeTag(text: string): string {
    var lead := "{\"type\":\"";
    if lead <= text then UpToQuote(text[|lead|..]) else ""
  }

  /** Reading the "type" value back out of a text that opens with a quote-free tag gives that tag. */
  lemma TypeTagOfOpening(g: string, s: string)
    requires '"' !in g && TypeOpen(g) <= s
    ensures JsonTypeTag(s) == g
  {
    var lead := "{\"type\":\"";
    var rest := s[|TypeOpen(g)|..];
    assert s == TypeOpen(g) + rest;
    assert s == lead + (g + "\"" + rest);
    assert s[|lead|..] == g + "\"" + rest;
    UpToQuoteReadsWord(g, rest);
  }

  /** Reading the "type" value back out of toJson gives getType. */
  lemma ToJsonTypeTag(l: Layer)
    ensures JsonTypeTag(ToJson(l)) == GetType(l)
  {
    TypeTagOfOpening(GetType(l), ToJson(l));
  }

  /** Each class has its own getType tag. */
  lemma GetTypeDistinct(l1: Layer, l2: Layer)
    ensures GetType(l1) == GetType(l2) <==> LayerType(l1) == LayerType(l2)
  {
  }

  /** Equal toJson texts come from layers of the same class. */
  lemma ToJsonDeterminesType(l1: Layer, l2: Layer)
    requires ToJson(l1) == ToJson(l2)
    ensures GetType(l1) == GetType(l2) && LayerType(l1) == LayerType(l2)
  {
    ToJsonTypeTag(l1);
    ToJsonTypeTag(l2);
    GetTypeDistinct(l1, l2);
  }

  // ---------------------------------------------------------------------------
  // The flags in the recurrent toJson texts

  /** The text after the first occurrence of key in s: how a reader finds a member's value. */
  function After(key: string, s: string): Option<string>
    decreases |s|
  {
    if key <= s then Some(s[|key|..])
    else if s == [] then None
    else After(key, s[1..])
  }

  /** A piece holding no copy of key's first character cannot hold key. */
  lemma {:induction false} AfterSkipsFree(key: string, a: string, b: string)
    requires key != [] && key[0] !in a
    ensures After(key, a + b) == After(key, b)
  {
    if a == [] {
      assert a + b == b;
    } else {
      assert !(key <= a + b) by {
        assert (a + b)[0] == a[0] != key[0];
      }
      assert (a + b)[1..] == a[1..] + b;
      AfterSkipsFree(key, a[1..], b);
    }
  }

  /** A piece that starts like key, differs from it at position i and repeats key's first character nowhere is skipped. */
  lemma AfterSkipsMismatch(key: string, c: string, rest: string, i: nat)
    requires c != [] && key != [] && c[0] == key[0] && key[0] !in c[1..]
    requires i < |c| && i < |key| && c[i] != key[i]
    ensures After(key, c + rest) == After(key, rest)
  {
    assert (c + rest)[i] == c[i];
    assert (c + rest)[1..] == c[1..] + rest;
    AfterSkipsFree(key, c[1..], rest);
  }

  lemma AfterFinds(key: string, rest: string)
    ensures After(key, key + rest) == Some(rest)
  {
    assert (key + rest)[|key|..] == rest;
  }

  lemma DecimalHasNoComma(x: int)
    ensures ',' !in IntToDecimal(x)
  {
    var s := IntToDecimal(x);
    forall i | 0 <= i < |s|
      ensures s[i] != ','
    {
    }
  }

  const InputSizeKey: string := ",\"input_size\":"
  const HiddenSizeKey: string := ",\"hidden_size\":"
  const NumLayersKey: string := ",\"num_layers\":"
  const BatchFirstKey: string := ",\"batch_first\":"
  const BidirectionalKey: string := ",\"bidirectional\":"
  const ReturnSequenceKey: string := ",\"return_sequence\":"

  /** A number member whose name differs from key passes a search for key. */
  lemma NumberMemberSkipped(key: string, name: string, x: int, rest: string)
    requires |key| > 2 && |name| > 2 && name[0] == key[0] == ',' && ',' !in name[1..] && name[2] != key[2]
    ensures After(key, name + (IntToDecimal(x) + rest)) == After(key, rest)
  {
    DecimalHasNoComma(x);
    AfterSkipsMismatch(key, name, IntToDecimal(x) + rest, 2);
    AfterSkipsFree(key, IntToDecimal(x), rest);
  }

  /** Three number members in a row, none named like key: a search for key passes over them. */
  lemma SizesSkipped(key: string, n1: string, n2: string, n3: string, x1: int, x2: int, x3: int, rest: string)
    requires |key| > 2 && |n1| > 2 && |n2| > 2 && |n3| > 2
    requires key[0] == n1[0] == n2[0] == n3[0] == ','
    requires ',' !in n1[1..] && ',' !in n2[1..] && ',' !in n3[1..]
    requires n1[2] != key[2] && n2[2] != key[2] && n3[2] != key[2]
    ensures After(key, n1 + (IntToDecimal(x1) + (n2 + (IntToDecimal(x2) + (n3 + (IntToDecimal(x3) + rest))))))
      == After(key, rest)
  {
    var t3 := n3 + (IntToDecimal(x3) + rest);
    var t2 := n2 + (IntToDecimal(x2) + t3);
    NumberMemberSkipped(key, n1, x1, t2);
    NumberMemberSkipped(key, n2, x2, t3);
    NumberMemberSkipped(key, n3, x3, rest);
  }

  /** Three flag members in a row: a search for each key stops right before that flag's text. */
  lemma FlagMembersFound(k1: string, k2: string, k3: string, b1: string, b2: string, b3: string, ending: string)
    requires |k1| > 3 && |k2| > 3 && |k3| > 3 && k1[0] == k2[0] == k3[0] == ','
    requires ',' !in k1[1..] && ',' !in k2[1..] && ',' !in b1 && ',' !in b2
    requires k1[3] != k2[3] && k1[2] != k3[2] && k2[2] != k3[2]
    ensures After(k1, k1 + (b1 + (k2 + (b2 + (k3 + (b3 + ending)))))) == Some(b1 + (k2 + (b2 + (k3 + (b3 + ending)))))
    ensures After(k2, k1 + (b1 + (k2 + (b2 + (k3 + (b3 + ending)))))) == Some(b2 + (k3 + (b3 + ending)))
    ensures After(k3, k1 + (b1 + (k2 + (b2 + (k3 + (b3 + ending)))))) == Some(b3 + ending)
  {
    var t3 := k3 + (b3 + ending);
    var t2 := k2 + (b2 + t3);
    AfterFinds(k1, b1 + t2);
    AfterSkipsMismatch(k2, k1, b1 + t2, 3);
    AfterSkipsFree(k2, b1, t2);
    AfterFinds(k2, b2 + t3);
    AfterSkipsMismatch(k3, k1, b1 + t2, 2);
    AfterSkipsFree(k3, b1, t2);
    AfterSkipsMismatch(k3, k2, b2 + t3, 2);
    AfterSkipsFree(k3, b2, t3);
    AfterFinds(k3, b3 + ending);
  }

  /** A member name: a comma, then no other comma. */
  predicate MemberName(n: string) {
    |n| > 3 && n[0] == ',' && ',' !in n[1..]
  }

  lemma InputSizeKeyName() ensures MemberName(InputSizeKey) && InputSizeKey[2] == 'i' {}
  lemma HiddenSizeKeyName() ensures MemberName(HiddenSizeKey) && HiddenSizeKey[2] == 'h' {}
  lemma NumLayersKeyName() ensures MemberName(NumLayersKey) && NumLayersKey[2] == 'n' {}
  lemma BatchFirstKeyName() ensures MemberName(BatchFirstKey) && BatchFirstKey[2] == 'b' && BatchFirstKey[3] == 'a' {}
  lemma BidirectionalKeyName() ensures MemberName(BidirectionalKey) && BidirectionalKey[2] == 'b' && BidirectionalKey[3] == 'i' {}
  lemma ReturnSequenceKeyName() ensures MemberName(ReturnSequenceKey) && ReturnSequenceKey[2] == 'r' {}

  /** Where each flag key first occurs in the shared recurrent members: right before that flag's text. */
  lemma FlagsInMembers(insz: Int32, hs: Int32, nl: Int32, bf: bool, bd: bool, rs: bool, ending: string)
    ensures After(BatchFirstKey, RecurrentMembers(insz, hs, nl, bf, bd, rs, ending))
      == Some(BoolText(bf) + (BidirectionalKey + (BoolText(bd) + (ReturnSequenceKey + (BoolText(rs) + ending)))))
    ensures After(BidirectionalKey, RecurrentMembers(insz, hs, nl, bf, bd, rs, ending))
      == Some(BoolText(bd) + (ReturnSequenceKey + (BoolText(rs) + ending)))
    ensures After(ReturnSequenceKey, RecurrentMembers(insz, hs, nl, bf, bd, rs, ending))
      == Some(BoolText(rs) + ending)
  {
    InputSizeKeyName();
    HiddenSizeKeyName();
    NumLayersKeyName();
    BatchFirstKeyName();
    BidirectionalKeyName();
    ReturnSequenceKeyName();
    assert ',' !in BoolText(bf) && ',' !in BoolText(bd);
    var flags := BatchFirstKey + (BoolText(bf) + (BidirectionalKey + (BoolText(bd) + (ReturnSequenceKey + (BoolText(rs) + ending)))));
    SizesSkipped(BatchFirstKey, InputSizeKey, HiddenSizeKey, NumLayersKey, insz, hs, nl, flags);
    SizesSkipped(BidirectionalKey, InputSizeKey, HiddenSizeKey, NumLayersKey, insz, hs, nl, flags);
    SizesSkipped(ReturnSequenceKey, InputSizeKey, HiddenSizeKey, NumLayersKey, insz, hs, nl, flags);
    FlagMembersFound(BatchFirstKey, BidirectionalKey, ReturnSequenceKey,
                     BoolText(bf), BoolText(bd), BoolText(rs), ending);
  }

  /**
   * In the LSTM, GRU and RNN texts, the first `"batch_first":` member
   * reads true exactly when batchFirst is set, and likewise for
   * bidirectional and return_sequence.
   */
  lemma RecurrentFlagsInText(l: Layer)
    requires l.kind.LSTM? || l.kind.GRU? || l.kind.RNN?
    ensures var s := ToJson(l);
      && After(BatchFirstKey, s).Some? && ("true" <= After(BatchFirstKey, s).value <==> l.kind.batchFirst)
      && After(BidirectionalKey, s).Some? && ("true" <= After(BidirectionalKey, s).value <==> l.kind.bidirectional)
      && After(ReturnSequenceKey, s).Some? && ("true" <= After(ReturnSequenceKey, s).value <==> l.kind.returnSequence)
  {
    var k := l.kind;
    var ending := if k.RNN? then ",\"rnn_activation\":\"" + k.rnnActivation + "\"}" else "}";
    assert MembersText(l) == RecurrentMembers(k.inputSize, k.hiddenSize, k.numLayers, k.batchFirst, k.bidirectional, k.returnSequence, ending);
    TypeOpenCommaFree(GetType(l));
    FlagsAfterOpening(TypeOpen(GetType(l)), k.inputSize, k.hiddenSize, k.numLayers, k.batchFirst, k.bidirectional, k.returnSequence, ending);
  }

  lemma FlagsAfterOpening(open: string, insz: Int32, hs: Int32, nl: Int32, bf: bool, bd: bool, rs: bool, ending: string)
    requires ',' !in open
    ensures var s := open + RecurrentMembers(insz, hs, nl, bf, bd, rs, ending);
      && After(BatchFirstKey, s).Some? && ("true" <= After(BatchFirstKey, s).value <==> bf)
      && After(BidirectionalKey, s).Some? && ("true" <= After(BidirectionalKey, s).value <==> bd)
      && After(ReturnSequenceKey, s).Some? && ("true" <= After(ReturnSequenceKey, s).value <==> rs)
  {
    var members := RecurrentMembers(insz, hs, nl, bf, bd, rs, ending);
    BatchFirstKeyName();
    BidirectionalKeyName();
    ReturnSequenceKeyName();
    AfterSkipsFree(BatchFirstKey, open, members);
    AfterSkipsFree(BidirectionalKey, open, members);
    AfterSkipsFree(ReturnSequenceKey, open, members);
    FlagsInMembers(insz, hs, nl, bf, bd, rs, ending);
    FlagTextLeads(bf, BidirectionalKey + (BoolText(bd) + (ReturnSequenceKey + (BoolText(rs) + ending))));
    FlagTextLeads(bd, ReturnSequenceKey + (BoolText(rs) + ending));
    FlagTextLeads(rs, ending);
  }

  lemma TypeOpenCommaFree(tag: string)
    requires ',' !in tag
    ensures ',' !in TypeOpen(tag)
  {
    var lead := "{\"type\":\"";
    assert ',' !in lead;
    assert TypeOpen(tag) == lead + tag + "\"";
  }

  /** A flag's text begins with "true" exactly when the flag is set. */
  lemma FlagTextLeads(b: bool, rest: string)
    ensures "true" <= BoolText(b) + rest <==> b
  {
    if !b {
      assert (BoolText(b) + rest)[0] == 'f';
    }
  }
}
