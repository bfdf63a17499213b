/**
 * The PyTorch code generator: CodeGenerator::generatePyTorchCode walks a list
 * of flat layer records and appends, in order, a fixed header, one `__init__`
 * line per recognised layer, the `forward` header, the forward-pass lines and
 * a fixed trailer.
 *
 * PyTorchCode is the specification (a table from layer kind to text, applied
 * position by position); GeneratePyTorchCode is the generator's two loops,
 * proved equal to it. Entries lists the recognised layers with their 1-based
 * positions, and the lemmas below describe both sections in terms of it.
 */
module CodeGen {
  import opened Common
  import LayerJson

  /** The flat layer record that the generator reads (the float dropoutRate is not modelled). */
  datatype Record = Record(
    layerType: string,
    neurons: Int32,
    inputSize: Int32,
    activationFunction: string,
    filters: Int32,
    kernelSize: Int32,
    poolingSize: Int32,
    units: Int32)

  /** A record as its member initialisers leave it; the layer list widget then sets layerType. */
  const DefaultRecord := Record("", 1000, 128, "relu", 0, 0, 0, 0)

  /** The six layer kinds the generator recognises. */
  datatype GenKind = Linear | Conv | Pool | Lstm | Rnn | Drop

  function KindOf(layerType: string): Option<GenKind> {
    if layerType == "Dense" then Some(Linear)
    else if layerType == "Convolutional" then Some(Conv)
    else if layerType == "Pooling" then Some(Pool)
    else if layerType == "LSTM" then Some(Lstm)
    else if layerType == "RNN" then Some(Rnn)
    else if layerType == "Dropout" then Some(Drop)
    else None
  }

  function AttrPrefix(k: GenKind): string {
    match k
    case Linear => "fc"
    case Conv => "conv"
    case Pool => "pool"
    case Lstm => "lstm"
    case Rnn => "rnn"
    case Drop => "dropout"
  }

  /** The attribute a layer is stored under: `fc3`, `conv1`, ... */
  function AttrName(k: GenKind, n: nat): string {
    AttrPrefix(k) + NatToDecimal(n)
  }

  /** The torch.nn module a recognised kind is built from. */
  function ModuleName(k: GenKind): string {
    match k
    case Linear => "Linear"
    case Conv => "Conv2d"
    case Pool => "MaxPool2d"
    case Lstm => "LSTM"
    case Rnn => "RNN"
    case Drop => "Dropout"
  }

  /**
   * The constructor arguments: inputSize then neurons for the four sized
   * kinds, fixed constants for pooling and dropout.
   */
  function ModuleArgs(k: GenKind, r: Record): string {
    var sizes := IntToDecimal(r.inputSize) + ", " + IntToDecimal(r.neurons);
    match k
    case Linear => sizes
    case Conv => sizes + ", kernel_size=3"
    case Pool => "kernel_size=2"
    case Lstm => sizes
    case Rnn => sizes
    case Drop => "p=0.5"
  }

  /** The `__init__` line of a recognised layer at 1-based position n. */
  function InitLineOf(k: GenKind, r: Record, n: nat): string {
    "        self." + AttrName(k, n) + " = nn." + ModuleName(k) + "(" + ModuleArgs(k, r) + ")\n"
  }

  /** What a forward call assigns to: recurrent modules return a pair. */
  function CallTarget(k: GenKind): string {
    if k == Lstm || k == Rnn then "x, _" else "x"
  }

  /** The forward-pass call of a recognised layer. */
  function CallLineOf(k: GenKind, n: nat): string {
    "        " + CallTarget(k) + " = self." + AttrName(k, n) + "(x)\n"
  }

  /** The activation statement emitted after a Dense layer's call, if any. */
  function ActivationLine(activation: string): string {
    if activation == "" then ""
    else if activation == "relu" then "        x = nn.functional.relu(x)\n"
    else if activation == "sigmoid" then "        x = torch.sigmoid(x)\n"
    else if activation == "softmax" then "        x = nn.functional.softmax(x, dim=1)\n"
    else if activation == "tanh" then "        x = torch.tanh(x)\n"
    else ""
  }

  function ForwardLinesOf(k: GenKind, r: Record, n: nat): string {
    CallLineOf(k, n) + (if k == Linear then ActivationLine(r.activationFunction) else "")
  }

  /** What the first loop appends for the record at 1-based position n. */
  function InitLine(r: Record, n: nat): string {
    match KindOf(r.layerType)
    case None => ""
    case Some(k) => InitLineOf(k, r, n)
  }

  /** What the second loop appends for the record at 1-based position n. */
  function ForwardLine(r: Record, n: nat): string {
    match KindOf(r.layerType)
    case None => ""
    case Some(k) => ForwardLinesOf(k, r, n)
  }

  function InitSection(ls: seq<Record>): string
    decreases |ls|
  {
    if ls == [] then "" else InitSection(ls[..|ls| - 1]) + InitLine(ls[|ls| - 1], |ls|)
  }

  function ForwardSection(ls: seq<Record>): string
    decreases |ls|
  {
    if ls == [] then "" else ForwardSection(ls[..|ls| - 1]) + ForwardLine(ls[|ls| - 1], |ls|)
  }

  const Header: string :=
    "# PyTorch 神经网络自动生成代码\n"
    + "import torch\n"
    + "import torch.nn as nn\n\n"
    + "class Net(nn.Module):\n"
    + "    def __init__(self):\n"
    + "        super(Net, self).__init__()\n"

  const ForwardHeader: string := "\n    def forward(self, x):\n"

  const Trailer: string := "        return x\n\n" + "model = Net()\n"

  /**
   * The generated program: header, layer definitions, forward pass, trailer.
   * Whatever the layers, it starts with the header and ends with the trailer.
   */
  function PyTorchCode(ls: seq<Record>): (code: string)
    ensures Header <= code
    ensures |Trailer| <= |code| && code[|code| - |Trailer|..] == Trailer
  {
    var front := Header + InitSection(ls) + ForwardHeader + ForwardSection(ls);
    assert (front + Trailer)[|front|..] == Trailer;
    AppendAssoc(Header, InitSection(ls), ForwardHeader + ForwardSection(ls));
    front + Trailer
  }

  /** Regrouping a sized `__init__` line of the table the way the source's format string spells it. */
  lemma SizedLineSpelling(attr: string, num: string, nnName: string, a: string, b: string, extra: string)
    ensures "        self." + (attr + num) + " = nn." + nnName + "(" + (a + ", " + b + extra) + ")\n"
         == ("        self." + attr) + num + (" = nn." + nnName + "(") + a + ", " + b + (extra + ")\n")
  {
  }

  lemma LinearInitSpelling(r: Record, n: nat)
    ensures InitLineOf(Linear, r, n) == "        self.fc" + NatToDecimal(n) + " = nn.Linear(" + IntToDecimal(r.inputSize) + ", " + IntToDecimal(r.neurons) + ")\n"
  {
  }

  lemma ConvInitSpelling(r: Record, n: nat)
    ensures InitLineOf(Conv, r, n) == "        self.conv" + NatToDecimal(n) + " = nn.Conv2d(" + IntToDecimal(r.inputSize) + ", " + IntToDecimal(r.neurons) + ", kernel_size=3)\n"
  {
    var a, b := IntToDecimal(r.inputSize), IntToDecimal(r.neurons);
    SizedLineSpelling("conv", NatToDecimal(n), "Conv2d", a, b, ", kernel_size=3");
    assert "        self." + "conv" == "        self.conv";
    assert " = nn." + "Conv2d" + "(" == " = nn.Conv2d(";
    assert a + ", " + b + ", kernel_size=3" == ModuleArgs(Conv, r);
    assert ", kernel_size=3" + ")\n" == ", kernel_size=3)\n";
  }

  lemma LstmInitSpelling(r: Record, n: nat)
    ensures InitLineOf(Lstm, r, n) == "        self.lstm" + NatToDecimal(n) + " = nn.LSTM(" + IntToDecimal(r.inputSize) + ", " + IntToDecimal(r.neurons) + ")\n"
  {
  }

  lemma RnnInitSpelling(r: Record, n: nat)
    ensures InitLineOf(Rnn, r, n) == "        self.rnn" + NatToDecimal(n) + " = nn.RNN(" + IntToDecimal(r.inputSize) + ", " + IntToDecimal(r.neurons) + ")\n"
  {
  }

  lemma PoolInitSpelling(r: Record, n: nat)
    ensures InitLineOf(Pool, r, n) == "        self.pool" + NatToDecimal(n) + " = nn.MaxPool2d(kernel_size=2)\n"
  {
  }

  lemma DropInitSpelling(r: Record, n: nat)
    ensures InitLineOf(Drop, r, n) == "        self.dropout" + NatToDecimal(n) + " = nn.Dropout(p=0.5)\n"
  {
  }

  lemma LinearCallSpelling(n: nat)
    ensures CallLineOf(Linear, n) == "        x = self.fc" + NatToDecimal(n) + "(x)\n"
  {
  }

  lemma ConvCallSpelling(n: nat)
    ensures CallLineOf(Conv, n) == "        x = self.conv" + NatToDecimal(n) + "(x)\n"
  {
  }

  lemma PoolCallSpelling(n: nat)
    ensures CallLineOf(Pool, n) == "        x = self.pool" + NatToDecimal(n) + "(x)\n"
  {
  }

  lemma LstmCallSpelling(n: nat)
    ensures CallLineOf(Lstm, n) == "        x, _ = self.lstm" + NatToDecimal(n) + "(x)\n"
  {
  }

  lemma RnnCallSpelling(n: nat)
    ensures CallLineOf(Rnn, n) == "        x, _ = self.rnn" + NatToDecimal(n) + "(x)\n"
  {
  }

  lemma DropCallSpelling(n: nat)
    ensures CallLineOf(Drop, n) == "        x = self.dropout" + NatToDecimal(n) + "(x)\n"
  {
  }

  /** The body of the first loop: the `__init__` statement for one record, spelled as in the source. */
  method InitStatement(layer: Record, n: nat) returns (line: string)
    ensures line == InitLine(layer, n)
  {
    var num := NatToDecimal(n);
    var a, b := IntToDecimal(layer.inputSize), IntToDecimal(layer.neurons);
    if layer.layerType == "Dense" {
      line := "        self.fc" + num + " = nn.Linear(" + a + ", " + b + ")\n";
      LinearInitSpelling(layer, n);
    } else if layer.layerType == "Convolutional" {
      line := "        self.conv" + num + " = nn.Conv2d(" + a + ", " + b + ", kernel_size=3)\n";
      ConvInitSpelling(layer, n);
    } else if layer.layerType == "Pooling" {
      line := "        self.pool" + num + " = nn.MaxPool2d(kernel_size=2)\n";
      PoolInitSpelling(layer, n);
    } else if layer.layerType == "LSTM" {
      line := "        self.lstm" + num + " = nn.LSTM(" + a + ", " + b + ")\n";
      LstmInitSpelling(layer, n);
    } else if layer.layerType == "RNN" {
      line := "        self.rnn" + num + " = nn.RNN(" + a + ", " + b + ")\n";
      RnnInitSpelling(layer, n);
    } else if layer.layerType == "Dropout" {
      line := "        self.dropout" + num + " = nn.Dropout(p=0.5)\n";
      DropInitSpelling(layer, n);
    } else {
      line := "";
    }
  }

  /** The body of the second loop: the forward statements for one record, spelled as in the source. */
  method ForwardStatements(layer: Record, n: nat) returns (lines: string)
    ensures lines == ForwardLine(layer, n)
  {
    var num := NatToDecimal(n);
    lines := "";
    if layer.layerType == "Dense" {
      lines := "        x = self.fc" + num + "(x)\n";
      LinearCallSpelling(n);
      if layer.activationFunction != "" {
        if layer.activationFunction == "relu" {
          lines := lines + "        x = nn.functional.relu(x)\n";
        } else if layer.activationFunction == "sigmoid" {
          lines := lines + "        x = torch.sigmoid(x)\n";
        } else if layer.activationFunction == "softmax" {
          lines := lines + "        x = nn.functional.softmax(x, dim=1)\n";
        } else if layer.activationFunction == "tanh" {
          lines := lines + "        x = torch.tanh(x)\n";
        }
      }
    } else if layer.layerType == "Convolutional" {
      lines := "        x = self.conv" + num + "(x)\n";
      ConvCallSpelling(n);
    } else if layer.layerType == "Pooling" {
      lines := "        x = self.pool" + num + "(x)\n";
      PoolCallSpelling(n);
    } else if layer.layerType == "LSTM" {
      lines := "        x, _ = self.lstm" + num + "(x)\n";
      LstmCallSpelling(n);
    } else if layer.layerType == "RNN" {
      lines := "        x, _ = self.rnn" + num + "(x)\n";
      RnnCallSpelling(n);
    } else if layer.layerType == "Dropout" {
      lines := "        x = self.dropout" + num + "(x)\n";
      DropCallSpelling(n);
    }
  }

  /** The first loop of CodeGenerator::generatePyTorchCode: one `__init__` statement per record. */
  method AppendLayerDefinitions(start: string, layers: seq<Record>) returns (code: string)
    ensures code == start + InitSection(layers)
  {
    code := start;
    var i := 0;
    assert layers[..0] == [];
    while i < |layers|
      invariant 0 <= i <= |layers|
      invariant code == start + InitSection(layers[..i])
    {
      var line := InitStatement(layers[i], i + 1);
      assert layers[..i + 1][..i] == layers[..i];
      assert InitSection(layers[..i + 1]) == InitSection(layers[..i]) + line;
      AppendAssoc(start, InitSection(layers[..i]), line);
      code := code + line;
      i := i + 1;
    }
    assert layers[..i] == layers;
  }

  /** The second loop: the forward statements of every record. */
  method AppendForwardPass(start: string, layers: seq<Record>) returns (code: string)
    ensures code == start + ForwardSection(layers)
  {
    code := start;
    var i := 0;
    assert layers[..0] == [];
    while i < |layers|
      invariant 0 <= i <= |layers|
      invariant code == start + ForwardSection(layers[..i])
    {
      var lines := ForwardStatements(layers[i], i + 1);
      assert layers[..i + 1][..i] == layers[..i];
      assert ForwardSection(layers[..i + 1]) == ForwardSection(layers[..i]) + lines;
      AppendAssoc(start, ForwardSection(layers[..i]), lines);
      code := code + lines;
      i := i + 1;
    }
    assert layers[..i] == layers;
  }

  /** CodeGenerator::generatePyTorchCode: header, first loop, forward header, second loop, trailer. */
  method GeneratePyTorchCode(layers: seq<Record>) returns (code: string)
    ensures code == PyTorchCode(layers)
  {
    code := Header;
    code := AppendLayerDefinitions(code, layers);
    code := code + ForwardHeader;
    code := AppendForwardPass(code, layers);
    code := code + Trailer;
  }

  // ---------------------------------------------------------------------------
  // The recognised layers and their positions

  /** A recognised layer together with the 1-based position it is named after. */
  datatype Entry = Entry(kind: GenKind, suffix: nat, layer: Record)

  function Entries(ls: seq<Record>): seq<Entry>
    decreases |ls|
  {
    if ls == [] then []
    else
      var last := ls[|ls| - 1];
      Entries(ls[..|ls| - 1]) +
      match KindOf(last.layerType)
      case None => []
      case Some(k) => [Entry(k, |ls|, last)]
  }

  function InitText(es: seq<Entry>): string
    decreases |es|
  {
    if es == [] then ""
    else
      var e := es[|es| - 1];
      InitText(es[..|es| - 1]) + InitLineOf(e.kind, e.layer, e.suffix)
  }

  function ForwardText(es: seq<Entry>): string
    decreases |es|
  {
    if es == [] then ""
    else
      var e := es[|es| - 1];
      ForwardText(es[..|es| - 1]) + ForwardLinesOf(e.kind, e.layer, e.suffix)
  }

  lemma {:induction false} EntriesSound(ls: seq<Record>)
    ensures forall j :: 0 <= j < |Entries(ls)| ==>
      1 <= Entries(ls)[j].suffix <= |ls| &&
      Entries(ls)[j].layer == ls[Entries(ls)[j].suffix - 1] &&
      KindOf(Entries(ls)[j].layer.layerType) == Some(Entries(ls)[j].kind)
    decreases |ls|
  {
    if ls != [] {
      var front := ls[..|ls| - 1];
      EntriesSound(front);
      assert forall i :: 0 <= i < |front| ==> front[i] == ls[i];
    }
  }

  lemma {:induction false} EntriesComplete(ls: seq<Record>, i: nat)
    requires i < |ls| && KindOf(ls[i].layerType).Some?
    ensures exists j :: 0 <= j < |Entries(ls)| && Entries(ls)[j] == Entry(KindOf(ls[i].layerType).value, i + 1, ls[i])
    decreases |ls|
  {
    var front := ls[..|ls| - 1];
    if i == |ls| - 1 {
      var j := |Entries(front)|;
      assert Entries(ls)[j] == Entry(KindOf(ls[i].layerType).value, i + 1, ls[i]);
    } else {
      assert front[i] == ls[i];
      EntriesComplete(front, i);
      var j :| 0 <= j < |Entries(front)| && Entries(front)[j] == Entry(KindOf(ls[i].layerType).value, i + 1, ls[i]);
      assert Entries(ls)[j] == Entries(front)[j];
    }
  }

  /** Suffixes of recognised layers strictly increase in list order. */
  lemma {:induction false} EntriesOrdered(ls: seq<Record>)
    ensures forall j, k :: 0 <= j < k < |Entries(ls)| ==> Entries(ls)[j].suffix < Entries(ls)[k].suffix
    decreases |ls|
  {
    if ls != [] {
      var front := ls[..|ls| - 1];
      EntriesOrdered(front);
      EntriesSound(front);
    }
  }

  lemma {:induction false} InitSectionByEntries(ls: seq<Record>)
    ensures InitSection(ls) == InitText(Entries(ls))
    decreases |ls|
  {
    if ls != [] {
      var front := ls[..|ls| - 1];
      var last := ls[|ls| - 1];
      InitSectionByEntries(front);
      match KindOf(last.layerType)
      case None =>
        assert Entries(ls) == Entries(front);
      case Some(k) =>
        var es := Entries(front) + [Entry(k, |ls|, last)];
        assert es[..|es| - 1] == Entries(front);
    }
  }

  lemma {:induction false} ForwardSectionByEntries(ls: seq<Record>)
    ensures ForwardSection(ls) == ForwardText(Entries(ls))
    decreases |ls|
  {
    if ls != [] {
      var front := ls[..|ls| - 1];
      var last := ls[|ls| - 1];
      ForwardSectionByEntries(front);
      match KindOf(last.layerType)
      case None =>
        assert Entries(ls) == Entries(front);
      case Some(k) =>
        var es := Entries(front) + [Entry(k, |ls|, last)];
        assert es[..|es| - 1] == Entries(front);
    }
  }

  /**
   * The whole program in terms of the recognised layers: each contributes one
   * `__init__` line and one group of forward lines, both sections walking the
   * same entries in the same order.
   */
  lemma CodeLayout(ls: seq<Record>)
    ensures PyTorchCode(ls) ==
      Header + InitText(Entries(ls)) + ForwardHeader + ForwardText(Entries(ls)) + Trailer
  {
    InitSectionByEntries(ls);
    ForwardSectionByEntries(ls);
  }

  lemma EmptyNetwork()
    ensures PyTorchCode([]) == Header + ForwardHeader + Trailer
  {
  }

  lemma AttrNameInjective(k1: GenKind, n1: nat, k2: GenKind, n2: nat)
    requires AttrName(k1, n1) == AttrName(k2, n2)
    ensures k1 == k2 && n1 == n2
  {
    assert AttrName(k1, n1)[0] == AttrPrefix(k1)[0];
    assert AttrName(k2, n2)[0] == AttrPrefix(k2)[0];
    assert k1 == k2;
    var p := |AttrPrefix(k1)|;
    assert AttrName(k1, n1)[p..] == NatToDecimal(n1);
    assert AttrName(k2, n2)[p..] == NatToDecimal(n2);
    NatToDecimalInjective(n1, n2);
  }

  /** No two recognised layers are stored under the same attribute name. */
  lemma AttrNamesDistinct(ls: seq<Record>)
    ensures forall j, k :: 0 <= j < k < |Entries(ls)| ==>
      AttrName(Entries(ls)[j].kind, Entries(ls)[j].suffix) != AttrName(Entries(ls)[k].kind, Entries(ls)[k].suffix)
  {
    EntriesOrdered(ls);
    forall j, k | 0 <= j < k < |Entries(ls)|
      ensures AttrName(Entries(ls)[j].kind, Entries(ls)[j].suffix) != AttrName(Entries(ls)[k].kind, Entries(ls)[k].suffix)
    {
      if AttrName(Entries(ls)[j].kind, Entries(ls)[j].suffix) == AttrName(Entries(ls)[k].kind, Entries(ls)[k].suffix) {
        AttrNameInjective(Entries(ls)[j].kind, Entries(ls)[j].suffix, Entries(ls)[k].kind, Entries(ls)[k].suffix);
      }
    }
  }

  // ---------------------------------------------------------------------------
  // Layers the generator does not recognise

  /** A record emits text in either section exactly when its tag is one of the six. */
  lemma EmitsIffRecognised(r: Record, n: nat)
    ensures InitLine(r, n) != "" <==> KindOf(r.layerType).Some?
    ensures ForwardLine(r, n) != "" <==> KindOf(r.layerType).Some?
  {
    match KindOf(r.layerType)
    case None =>
    case Some(k) =>
      assert |InitLineOf(k, r, n)| > 0;
      assert |CallLineOf(k, n)| > 0;
  }

  /** Appending a record appends its lines, named after its position. */
  lemma SectionsAppend(ls: seq<Record>, r: Record)
    ensures InitSection(ls + [r]) == InitSection(ls) + InitLine(r, |ls| + 1)
    ensures ForwardSection(ls + [r]) == ForwardSection(ls) + ForwardLine(r, |ls| + 1)
  {
    assert (ls + [r])[..|ls|] == ls;
  }

  /** A skipped layer still uses up its position: the next layer is named after position |ls| + 2. */
  lemma SkippedLayerConsumesIndex(ls: seq<Record>, skipped: Record, next: Record)
    requires KindOf(skipped.layerType).None?
    ensures InitSection(ls + [skipped, next]) == InitSection(ls) + InitLine(next, |ls| + 2)
    ensures ForwardSection(ls + [skipped, next]) == ForwardSection(ls) + ForwardLine(next, |ls| + 2)
  {
    var mid := ls + [skipped];
    assert ls + [skipped, next] == mid + [next];
    SectionsAppend(ls, skipped);
    SectionsAppend(mid, next);
    assert InitLine(skipped, |ls| + 1) == "" && ForwardLine(skipped, |ls| + 1) == "";
    assert InitSection(mid) == InitSection(ls) && ForwardSection(mid) == ForwardSection(ls);
  }

  lemma UnrecognisedTags()
    ensures KindOf("Input").None? && KindOf("Hidden").None? && KindOf("Output").None?
    ensures KindOf("Conv2d").None? && KindOf("MaxPool2d").None? && KindOf("dense").None?
  {
  }

  /**
   * The factory's tags and the generator's tags overlap only in Dense, LSTM,
   * RNN and Dropout: a Conv2d, pooling, GRU, batch-norm or Flatten layer built
   * from JSON emits nothing.
   */
  lemma FactoryTagsRecognised(k: LayerJson.Kind)
    ensures KindOf(LayerJson.TypeName(k)).Some? <==> (k.Dense? || k.LSTM? || k.RNN? || k.Dropout?)
  {
  }

  // ---------------------------------------------------------------------------
  // The text of individual lines

  /** Only the tag, inputSize and neurons reach an `__init__` line; the extras never do. */
  lemma InitLineDependsOnSizes(r1: Record, r2: Record, n: nat)
    requires r1.layerType == r2.layerType
    requires r1.inputSize == r2.inputSize && r1.neurons == r2.neurons
    ensures InitLine(r1, n) == InitLine(r2, n)
  {
  }

  /** Only the tag and the activation reach the forward lines. */
  lemma ForwardLineDependsOnActivation(r1: Record, r2: Record, n: nat)
    requires r1.layerType == r2.layerType && r1.activationFunction == r2.activationFunction
    ensures ForwardLine(r1, n) == ForwardLine(r2, n)
  {
  }

  /** A Pooling or Dropout line is the same whatever the record's numbers are. */
  lemma FixedArgumentLines(r1: Record, r2: Record, n: nat)
    requires r1.layerType == r2.layerType
    requires r1.layerType == "Pooling" || r1.layerType == "Dropout"
    ensures InitLine(r1, n) == InitLine(r2, n)
    ensures ForwardLine(r1, n) == ForwardLine(r2, n)
  {
  }

  /** Exactly the four known activation names produce a statement. */
  lemma ActivationEmitted(a: string)
    ensures ActivationLine(a) != "" <==> (a == "relu" || a == "sigmoid" || a == "softmax" || a == "tanh")
  {
  }

  /** An activation statement follows only a Dense layer's call. */
  lemma ActivationOnlyAfterDense(r: Record, n: nat)
    requires KindOf(r.layerType).Some?
    ensures var k := KindOf(r.layerType).value;
      ForwardLine(r, n) == CallLineOf(k, n) + (if r.layerType == "Dense" then ActivationLine(r.activationFunction) else "")
  {
  }

  /** LSTM and RNN calls unpack a pair; every other call assigns x directly. */
  lemma RecurrentCallsUnpack(r: Record, n: nat)
    requires KindOf(r.layerType).Some?
    ensures var line := ForwardLine(r, n);
      (r.layerType == "LSTM" || r.layerType == "RNN") <==> "        x, _ = self." <= line
    ensures !(r.layerType == "LSTM" || r.layerType == "RNN") ==> "        x = self." <= ForwardLine(r, n)
  {
    var k := KindOf(r.layerType).value;
    var line := ForwardLine(r, n);
    if !(r.layerType == "LSTM" || r.layerType == "RNN") {
      assert line[..17] == "        x = self.";
      assert line[10] == '=';
    }
  }

  /** Two records agree on every field the generator reads: the tag, the sizes and the activation. */
  predicate SameVisible(r1: Record, r2: Record) {
    r1.layerType == r2.layerType && r1.inputSize == r2.inputSize &&
    r1.neurons == r2.neurons && r1.activationFunction == r2.activationFunction
  }

  /** The generated program ignores every record field but the tag, the sizes and the activation. */
  lemma ExtrasIgnored(ls1: seq<Record>, ls2: seq<Record>)
    requires |ls1| == |ls2|
    requires forall i :: 0 <= i < |ls1| ==> SameVisible(ls1[i], ls2[i])
    ensures PyTorchCode(ls1) == PyTorchCode(ls2)
  {
    SectionsIgnoreExtras(ls1, ls2);
  }

  lemma SectionsIgnoreExtras(ls1: seq<Record>, ls2: seq<Record>)
    requires |ls1| == |ls2|
    requires forall i :: 0 <= i < |ls1| ==> SameVisible(ls1[i], ls2[i])
    ensures InitSection(ls1) == InitSection(ls2) && ForwardSection(ls1) == ForwardSection(ls2)
  {
    InitSectionIgnoresExtras(ls1, ls2);
    ForwardSectionIgnoresExtras(ls1, ls2);
  }

  lemma {:induction false} InitSectionIgnoresExtras(ls1: seq<Record>, ls2: seq<Record>)
    requires |ls1| == |ls2|
    requires forall i :: 0 <= i < |ls1| ==> SameVisible(ls1[i], ls2[i])
    ensures InitSection(ls1) == InitSection(ls2)
    decreases |ls1|
  {
    if ls1 != [] {
      var n := |ls1|;
      var f1, f2 := ls1[..n - 1], ls2[..n - 1];
      forall i | 0 <= i < |f1| ensures SameVisible(f1[i], f2[i]) {
        assert f1[i] == ls1[i] && f2[i] == ls2[i];
      }
      InitSectionIgnoresExtras(f1, f2);
      var r1, r2 := ls1[n - 1], ls2[n - 1];
      InitLineDependsOnSizes(r1, r2, n);
      assert InitSection(ls1) == InitSection(f1) + InitLine(r1, n);
      assert InitSection(ls2) == InitSection(f2) + InitLine(r2, n);
    }
  }

  lemma {:induction false} ForwardSectionIgnoresExtras(ls1: seq<Record>, ls2: seq<Record>)
    requires |ls1| == |ls2|
    requires forall i :: 0 <= i < |ls1| ==> SameVisible(ls1[i], ls2[i])
    ensures ForwardSection(ls1) == ForwardSection(ls2)
    decreases |ls1|
  {
    if ls1 != [] {
      var n := |ls1|;
      var f1, f2 := ls1[..n - 1], ls2[..n - 1];
      forall i | 0 <= i < |f1| ensures SameVisible(f1[i], f2[i]) {
        assert f1[i] == ls1[i] && f2[i] == ls2[i];
      }
      ForwardSectionIgnoresExtras(f1, f2);
      var r1, r2 := ls1[n - 1], ls2[n - 1];
      ForwardLineDependsOnActivation(r1, r2, n);
      assert ForwardSection(ls1) == ForwardSection(f1) + ForwardLine(r1, n);
      assert ForwardSection(ls2) == ForwardSection(f2) + ForwardLine(r2, n);
    }
  }

  lemma DefaultSizesText()
    ensures NatToDecimal(1) == "1" && IntToDecimal(128) == "128" && IntToDecimal(1000) == "1000"
  {
    assert NatToDecimal(1) == "1";
    assert IntToDecimal(128) == "128" by {
      assert NatToDecimal(12) == "12" by { assert NatToDecimal(1) == "1"; }
    }
    assert IntToDecimal(1000) == "1000" by {
      assert NatToDecimal(10) == "10" by { assert NatToDecimal(1) == "1"; }
      assert NatToDecimal(100) == "100";
    }
  }

  /** The `__init__` line a default record tagged Dense produces at position 1. */
  lemma DefaultDenseInitLine()
    ensures InitLine(DefaultRecord.(layerType := "Dense"), 1) == "        self.fc1 = nn.Linear(128, 1000)\n"
  {
    LinearInitSpelling(DefaultRecord.(layerType := "Dense"), 1);
    DefaultSizesText();
  }

  /** The forward lines of the same record: the call, then relu, its default activation. */
  lemma DefaultDenseForwardLines()
    ensures ForwardLine(DefaultRecord.(layerType := "Dense"), 1)
      == "        x = self.fc1(x)\n" + "        x = nn.functional.relu(x)\n"
  {
    LinearCallSpelling(1);
    DefaultSizesText();
  }

  /** A one-layer network: the header, that layer's lines in both sections, the trailer. */
  lemma SingleLayerCode(r: Record)
    ensures PyTorchCode([r]) == Header + InitLine(r, 1) + ForwardHeader + ForwardLine(r, 1) + Trailer
  {
    SectionsOfOne(r);
  }

  lemma SectionsOfOne(r: Record)
    ensures InitSection([r]) == InitLine(r, 1) && ForwardSection([r]) == ForwardLine(r, 1)
  {
    assert [r][..0] == [];
  }

  /** A record fresh from the layer list, tagged Dense, becomes Linear(128, 1000) followed by relu. */
  lemma DefaultDenseRecord()
    ensures var r := DefaultRecord.(layerType := "Dense");
      PyTorchCode([r]) == Header
        + "        self.fc1 = nn.Linear(128, 1000)\n"
        + ForwardHeader
        + "        x = self.fc1(x)\n" + "        x = nn.functional.relu(x)\n"
        + Trailer
  {
    var r := DefaultRecord.(layerType := "Dense");
    var call, act := "        x = self.fc1(x)\n", "        x = nn.functional.relu(x)\n";
    SingleLayerCode(r);
    DefaultDenseInitLine();
    DefaultDenseForwardLines();
    AppendAssoc(Header + InitLine(r, 1) + ForwardHeader, call, act);
  }
}
