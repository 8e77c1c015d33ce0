/** VitHead (seg/mmseg/models/decode_heads/vit_head.py): the decode head that
    turns two declarative lists per stage (out-channels and kernel sizes)
    into a stack of deconvolution blocks followed by a stack of convolution
    blocks. Each block is a layer, an InstanceNorm over its out-channels and
    a SiLU. A layer is modelled as the config record the source hands to
    build_upsample_layer / build_conv_layer; the ValueErrors the source
    raises are values of Error. */
module DecodeHeads {
  import opened Wrappers

  type Positive = x: int | x > 0 witness 1

  datatype LayerType = Conv2d | Deconv

  /** The config dict of one layer. Keys the source leaves out are None
      (the library's defaults then apply). */
  datatype LayerCfg = LayerCfg(
    kind: LayerType,
    inChannels: int,
    outChannels: int,
    kernelSize: int,
    stride: Positive,
    padding: int,
    outputPadding: Option<int>,
    bias: Option<bool>)

  datatype Module = Layer(cfg: LayerCfg) | InstanceNorm(numFeatures: int) | SiLU

  /** nn.Identity() or nn.Sequential(*modules). */
  datatype Stage = Identity | Sequential(modules: seq<Module>)

  datatype StageName = DeconvStage | ConvStage

  datatype Error =
    | LengthMismatch(stage: StageName)   // out-channel and kernel-size lists disagree
    | UnsupportedKernel(kernelSize: int) // no padding rule for this deconvolution kernel

  /** One block: the layer, InstanceNorm2d(out_channels), SiLU(inplace=True). */
  function Block(cfg: LayerCfg): seq<Module> {
    [Layer(cfg), InstanceNorm(cfg.outChannels), SiLU]
  }

  /** The channel count after a list of out-channels: its last entry, or c
      when it is empty. */
  function LastOr(c: int, outs: seq<int>): int {
    if outs == [] then c else outs[|outs| - 1]
  }

  /** The input channels of block i: the head's for the first block, the
      previous block's out-channels after that. */
  function InAt(c: int, outs: seq<int>, i: nat): int
    requires i < |outs|
  {
    if i == 0 then c else outs[i - 1]
  }

  function Min(a: nat, b: nat): nat {
    if a <= b then a else b
  }

  // ---------------------------------------------------------------------------
  // Convolution blocks (_make_conv_layers, lines 67-88)
  // ---------------------------------------------------------------------------

  /** A stride-1 convolution padded by (k - 1) // 2. Python's floor division
      and Dafny's `/` agree here because the divisor is positive. */
  function ConvCfg(inCh: int, outCh: int, k: int): LayerCfg {
    LayerCfg(Conv2d, inCh, outCh, k, 1, (k - 1) / 2, None, None)
  }

  /** The modules _make_conv_layers builds from lists of equal length. */
  function ConvBlocks(inCh: int, outs: seq<int>, ks: seq<int>): seq<Module>
    requires |outs| == |ks|
    decreases |outs|
  {
    if outs == [] then []
    else
      var n := |outs| - 1;
      ConvBlocks(inCh, outs[..n], ks[..n]) + Block(ConvCfg(LastOr(inCh, outs[..n]), outs[n], ks[n]))
  }

  /** _make_conv_layers: walks the two lists in step (zip stops at the
      shorter one), appending a block per pair and handing each block's
      out-channels on as the next block's in-channels. */
  method MakeConvLayers(inChannels: int, layerOutChannels: seq<int>, layerKernelSizes: seq<int>)
    returns (layers: seq<Module>)
    ensures var n := Min(|layerOutChannels|, |layerKernelSizes|);
      layers == ConvBlocks(inChannels, layerOutChannels[..n], layerKernelSizes[..n])
  {
    var n := Min(|layerOutChannels|, |layerKernelSizes|);
    layers := [];
    var c := inChannels;
    var i := 0;
    while i < n
      invariant 0 <= i <= n
      invariant layers == ConvBlocks(inChannels, layerOutChannels[..i], layerKernelSizes[..i])
      invariant c == LastOr(inChannels, layerOutChannels[..i])
    {
      var outChannels, kernelSize := layerOutChannels[i], layerKernelSizes[i];
      var padding := (kernelSize - 1) / 2;
      var cfg := LayerCfg(Conv2d, c, outChannels, kernelSize, 1, padding, None, None);
      layers := layers + [Layer(cfg), InstanceNorm(outChannels), SiLU];
      c := outChannels;
      assert layerOutChannels[..i + 1][..i] == layerOutChannels[..i];
      assert layerKernelSizes[..i + 1][..i] == layerKernelSizes[..i];
      i := i + 1;
    }
  }

  // ---------------------------------------------------------------------------
  // Deconvolution blocks (_make_deconv_layers, lines 90-125)
  // ---------------------------------------------------------------------------

  /** Lines 98-110: padding and output padding per deconvolution kernel
      size; None (a ValueError in the source) for any other size. Every
      supported entry makes a stride-2 deconvolution exactly double the
      spatial size: k - 2 * padding + output_padding == 2. */
  function DeconvPadding(k: int): (r: Option<(int, int)>)
    ensures r.Some? <==> k in {2, 3, 4}
    ensures r.Some? ==> k - 2 * r.value.0 + r.value.1 == 2
  {
    if k == 4 then Some((1, 0))
    else if k == 3 then Some((1, 1))
    else if k == 2 then Some((0, 0))
    else None
  }

  /** A stride-2 deconvolution without bias. */
  function DeconvCfg(inCh: int, outCh: int, k: int, padding: int, outputPadding: int): LayerCfg {
    LayerCfg(Deconv, inCh, outCh, k, 2, padding, Some(outputPadding), Some(false))
  }

  /** The modules _make_deconv_layers builds from lists of equal length, or
      the error for the first unsupported kernel size. */
  function DeconvBlocks(inCh: int, outs: seq<int>, ks: seq<int>): Result<seq<Module>, Error>
    requires |outs| == |ks|
    decreases |outs|
  {
    if outs == [] then Success([])
    else
      var n := |outs| - 1;
      match DeconvBlocks(inCh, outs[..n], ks[..n])
      case Failure(e) => Failure(e)
      case Success(prefix) =>
        match DeconvPadding(ks[n])
        case None => Failure(UnsupportedKernel(ks[n]))
        case Some((p, op)) => Success(prefix + Block(DeconvCfg(LastOr(inCh, outs[..n]), outs[n], ks[n], p, op)))
  }

  /** Once a prefix of the lists fails, the whole lists fail with the same
      error: later pairs are never looked at. */
  lemma {:induction false} DeconvFailureSticks(inCh: int, outs: seq<int>, ks: seq<int>, i: nat)
    requires |outs| == |ks| && i <= |outs|
    requires DeconvBlocks(inCh, outs[..i], ks[..i]).Failure?
    ensures DeconvBlocks(inCh, outs, ks) == DeconvBlocks(inCh, outs[..i], ks[..i])
    decreases |outs| - i
  {
    if i < |outs| {
      var n := |outs| - 1;
      assert outs[..n][..i] == outs[..i] && ks[..n][..i] == ks[..i];
      DeconvFailureSticks(inCh, outs[..n], ks[..n], i);
    } else {
      assert outs[..i] == outs && ks[..i] == ks;
    }
  }

  /** _make_deconv_layers: walks the two lists in step, looks the kernel
      size up in the padding table (raising ValueError for an unsupported
      size), appends a block per pair and threads the channels. */
  method MakeDeconvLayers(inChannels: int, layerOutChannels: seq<int>, layerKernelSizes: seq<int>)
    returns (r: Result<seq<Module>, Error>)
    ensures var n := Min(|layerOutChannels|, |layerKernelSizes|);
      r == DeconvBlocks(inChannels, layerOutChannels[..n], layerKernelSizes[..n])
  {
    var n := Min(|layerOutChannels|, |layerKernelSizes|);
    var layers := [];
    var c := inChannels;
    var i := 0;
    while i < n
      invariant 0 <= i <= n
      invariant DeconvBlocks(inChannels, layerOutChannels[..i], layerKernelSizes[..i]) == Success(layers)
      invariant c == LastOr(inChannels, layerOutChannels[..i])
    {
      var outChannels, kernelSize := layerOutChannels[i], layerKernelSizes[i];
      assert layerOutChannels[..i + 1][..i] == layerOutChannels[..i];
      assert layerKernelSizes[..i + 1][..i] == layerKernelSizes[..i];
      var padding, outputPadding;
      if kernelSize == 4 {
        padding, outputPadding := 1, 0;
      } else if kernelSize == 3 {
        padding, outputPadding := 1, 1;
      } else if kernelSize == 2 {
        padding, outputPadding := 0, 0;
      } else {
        DeconvFailureSticks(inChannels, layerOutChannels[..n], layerKernelSizes[..n], i + 1);
        assert layerOutChannels[..n][..i + 1] == layerOutChannels[..i + 1];
        assert layerKernelSizes[..n][..i + 1] == layerKernelSizes[..i + 1];
        return Failure(UnsupportedKernel(kernelSize));
      }
      var cfg := LayerCfg(Deconv, c, outChannels, kernelSize, 2, padding, Some(outputPadding), Some(false));
      layers := layers + [Layer(cfg), InstanceNorm(outChannels), SiLU];
      c := outChannels;
      i := i + 1;
    }
    assert layerOutChannels[..n] == layerOutChannels[..i] && layerKernelSizes[..n] == layerKernelSizes[..i];
    r := Success(layers);
  }

  predicate Supported(k: int) {
    DeconvPadding(k).Some?
  }

  /** The deconvolution blocks fail exactly when some kernel size is
      unsupported, and then with the first such size. */
  lemma {:induction false} DeconvBlocksErrors(inCh: int, outs: seq<int>, ks: seq<int>)
    requires |outs| == |ks|
    ensures DeconvBlocks(inCh, outs, ks).Success? <==> forall i :: 0 <= i < |ks| ==> Supported(ks[i])
    ensures DeconvBlocks(inCh, outs, ks).Failure? ==>
      exists i :: 0 <= i < |ks| && !Supported(ks[i]) && (forall j :: 0 <= j < i ==> Supported(ks[j]))
        && DeconvBlocks(inCh, outs, ks).error == UnsupportedKernel(ks[i])
    decreases |outs|
  {
    if outs != [] {
      var n := |outs| - 1;
      DeconvBlocksErrors(inCh, outs[..n], ks[..n]);
      assert forall i :: 0 <= i < n ==> ks[..n][i] == ks[i];
    }
  }

  // ---------------------------------------------------------------------------
  // Layout, channel threading and spatial size
  // ---------------------------------------------------------------------------

  /** The modules as they sit in the list: block i occupies positions
      3i, 3i+1, 3i+2. */
  ghost predicate BlockAt(mods: seq<Module>, i: nat, cfg: LayerCfg) {
    3 * i + 2 < |mods| && mods[3 * i] == Layer(cfg) && mods[3 * i + 1] == InstanceNorm(cfg.outChannels) && mods[3 * i + 2] == SiLU
  }

  lemma BlockAtPrefix(a: seq<Module>, b: seq<Module>, i: nat, cfg: LayerCfg)
    requires BlockAt(a, i, cfg)
    ensures BlockAt(a + b, i, cfg)
  {
  }

  lemma BlockAtEnd(a: seq<Module>, cfg: LayerCfg, m: nat)
    requires |a| == 3 * m
    ensures BlockAt(a + Block(cfg), m, cfg)
  {
  }

  lemma {:induction false} ConvBlocksLength(inCh: int, outs: seq<int>, ks: seq<int>)
    requires |outs| == |ks|
    ensures |ConvBlocks(inCh, outs, ks)| == 3 * |outs|
    decreases |outs|
  {
    if outs != [] {
      ConvBlocksLength(inCh, outs[..|outs| - 1], ks[..|outs| - 1]);
    }
  }

  /** Block i of the convolution stack, by induction on the list length. */
  lemma {:induction false} ConvBlockAt(inCh: int, outs: seq<int>, ks: seq<int>, i: nat)
    requires |outs| == |ks| && i < |outs|
    ensures BlockAt(ConvBlocks(inCh, outs, ks), i, ConvCfg(InAt(inCh, outs, i), outs[i], ks[i]))
    decreases |outs|
  {
    var n := |outs| - 1;
    var prefix := ConvBlocks(inCh, outs[..n], ks[..n]);
    var last := ConvCfg(LastOr(inCh, outs[..n]), outs[n], ks[n]);
    assert ConvBlocks(inCh, outs, ks) == prefix + Block(last);
    if i < n {
      ConvBlockAt(inCh, outs[..n], ks[..n], i);
      assert InAt(inCh, outs[..n], i) == InAt(inCh, outs, i) && outs[..n][i] == outs[i] && ks[..n][i] == ks[i];
      BlockAtPrefix(prefix, Block(last), i, ConvCfg(InAt(inCh, outs, i), outs[i], ks[i]));
    } else {
      ConvBlocksLength(inCh, outs[..n], ks[..n]);
      assert InAt(inCh, outs, i) == LastOr(inCh, outs[..n]);
      BlockAtEnd(prefix, last, n);
    }
  }

  /** n pairs give 3n modules; block i is a stride-1 convolution from
      InAt(i) to outs[i] channels with kernel ks[i] and padding
      (ks[i] - 1) // 2. */
  lemma ConvBlocksLayout(inCh: int, outs: seq<int>, ks: seq<int>)
    requires |outs| == |ks|
    ensures |ConvBlocks(inCh, outs, ks)| == 3 * |outs|
    ensures forall i :: 0 <= i < |outs| ==> BlockAt(ConvBlocks(inCh, outs, ks), i, ConvCfg(InAt(inCh, outs, i), outs[i], ks[i]))
  {
    ConvBlocksLength(inCh, outs, ks);
    forall i | 0 <= i < |outs| ensures BlockAt(ConvBlocks(inCh, outs, ks), i, ConvCfg(InAt(inCh, outs, i), outs[i], ks[i])) {
      ConvBlockAt(inCh, outs, ks, i);
    }
  }

  lemma {:induction false} DeconvBlocksLength(inCh: int, outs: seq<int>, ks: seq<int>)
    requires |outs| == |ks|
    requires DeconvBlocks(inCh, outs, ks).Success?
    ensures |DeconvBlocks(inCh, outs, ks).value| == 3 * |outs|
    decreases |outs|
  {
    if outs != [] {
      DeconvBlocksLength(inCh, outs[..|outs| - 1], ks[..|outs| - 1]);
    }
  }

  /** The deconvolution config of block i, its padding looked up in the table. */
  function DeconvCfgAt(inCh: int, outs: seq<int>, ks: seq<int>, i: nat): LayerCfg
    requires |outs| == |ks| && i < |outs| && DeconvPadding(ks[i]).Some?
  {
    DeconvCfg(InAt(inCh, outs, i), outs[i], ks[i], DeconvPadding(ks[i]).value.0, DeconvPadding(ks[i]).value.1)
  }

  /** Block i of the deconvolution stack, by induction on the list length. */
  lemma {:induction false} DeconvBlockAt(inCh: int, outs: seq<int>, ks: seq<int>, i: nat)
    requires |outs| == |ks| && i < |outs|
    requires DeconvBlocks(inCh, outs, ks).Success?
    ensures DeconvPadding(ks[i]).Some? && BlockAt(DeconvBlocks(inCh, outs, ks).value, i, DeconvCfgAt(inCh, outs, ks, i))
    decreases |outs|
  {
    var n := |outs| - 1;
    var prefix := DeconvBlocks(inCh, outs[..n], ks[..n]).value;
    var (p, op) := DeconvPadding(ks[n]).value;
    var last := DeconvCfg(LastOr(inCh, outs[..n]), outs[n], ks[n], p, op);
    assert DeconvBlocks(inCh, outs, ks).value == prefix + Block(last);
    if i < n {
      DeconvBlockAt(inCh, outs[..n], ks[..n], i);
      assert InAt(inCh, outs[..n], i) == InAt(inCh, outs, i) && ks[..n][i] == ks[i] && outs[..n][i] == outs[i];
      assert DeconvCfgAt(inCh, outs[..n], ks[..n], i) == DeconvCfgAt(inCh, outs, ks, i);
      BlockAtPrefix(prefix, Block(last), i, DeconvCfgAt(inCh, outs, ks, i));
    } else {
      DeconvBlocksLength(inCh, outs[..n], ks[..n]);
      assert InAt(inCh, outs, i) == LastOr(inCh, outs[..n]);
      BlockAtEnd(prefix, last, n);
    }
  }

  /** n supported pairs give 3n modules; block i is a stride-2, bias-free
      deconvolution from InAt(i) to outs[i] channels with the tabled
      padding for ks[i]. */
  lemma DeconvBlocksLayout(inCh: int, outs: seq<int>, ks: seq<int>)
    requires |outs| == |ks|
    requires DeconvBlocks(inCh, outs, ks).Success?
    ensures |DeconvBlocks(inCh, outs, ks).value| == 3 * |outs|
    ensures forall i :: 0 <= i < |outs| ==>
      (DeconvPadding(ks[i]).Some? && BlockAt(DeconvBlocks(inCh, outs, ks).value, i, DeconvCfgAt(inCh, outs, ks, i)))
  {
    DeconvBlocksLength(inCh, outs, ks);
    forall i | 0 <= i < |outs|
      ensures DeconvPadding(ks[i]).Some? && BlockAt(DeconvBlocks(inCh, outs, ks).value, i, DeconvCfgAt(inCh, outs, ks, i))
    {
      DeconvBlockAt(inCh, outs, ks, i);
    }
  }

  /** Every layer takes the channels the module before it produced (the
      head's own in-channels at the start), and every InstanceNorm is over
      the channels reaching it. */
  predicate Threaded(mods: seq<Module>, c: int)
    decreases |mods|
  {
    if mods == [] then true
    else match mods[0]
      case Layer(cfg) => cfg.inChannels == c && Threaded(mods[1..], cfg.outChannels)
      case InstanceNorm(f) => f == c && Threaded(mods[1..], c)
      case SiLU => Threaded(mods[1..], c)
  }

  /** The channel count after a module list that starts from c channels. */
  function OutChannels(mods: seq<Module>, c: int): int
    decreases |mods|
  {
    if mods == [] then c
    else match mods[0]
      case Layer(cfg) => OutChannels(mods[1..], cfg.outChannels)
      case _ => OutChannels(mods[1..], c)
  }

  lemma {:induction false} ThreadedAppend(a: seq<Module>, b: seq<Module>, c: int)
    ensures Threaded(a + b, c) <==> Threaded(a, c) && Threaded(b, OutChannels(a, c))
    ensures OutChannels(a + b, c) == OutChannels(b, OutChannels(a, c))
    decreases |a|
  {
    if a != [] {
      assert (a + b)[0] == a[0] && (a + b)[1..] == a[1..] + b;
      match a[0]
      case Layer(cfg) => ThreadedAppend(a[1..], b, cfg.outChannels);
      case _ => ThreadedAppend(a[1..], b, c);
    } else {
      assert a + b == b;
    }
  }

  lemma BlockThreaded(cfg: LayerCfg)
    ensures Threaded(Block(cfg), cfg.inChannels)
    ensures OutChannels(Block(cfg), cfg.inChannels) == cfg.outChannels
  {
    var o := cfg.outChannels;
    var t: seq<Module> := [SiLU];
    assert t[1..] == [];
    assert Threaded(t, o) && OutChannels(t, o) == o;
    var u: seq<Module> := [InstanceNorm(o), SiLU];
    assert u[1..] == t;
    assert Threaded(u, o) && OutChannels(u, o) == o;
    assert Block(cfg)[1..] == u;
  }

  /** The convolution blocks are threaded from the head's in-channels and end
      at the last out-channel entry. */
  lemma {:induction false} ConvBlocksThreaded(inCh: int, outs: seq<int>, ks: seq<int>)
    requires |outs| == |ks|
    ensures Threaded(ConvBlocks(inCh, outs, ks), inCh)
    ensures OutChannels(ConvBlocks(inCh, outs, ks), inCh) == LastOr(inCh, outs)
    decreases |outs|
  {
    if outs != [] {
      var n := |outs| - 1;
      ConvBlocksThreaded(inCh, outs[..n], ks[..n]);
      BlockThreaded(ConvCfg(LastOr(inCh, outs[..n]), outs[n], ks[n]));
      ThreadedAppend(ConvBlocks(inCh, outs[..n], ks[..n]), Block(ConvCfg(LastOr(inCh, outs[..n]), outs[n], ks[n])), inCh);
    }
  }

  /** The same for the deconvolution blocks, when they are built. */
  lemma {:induction false} DeconvBlocksThreaded(inCh: int, outs: seq<int>, ks: seq<int>)
    requires |outs| == |ks|
    requires DeconvBlocks(inCh, outs, ks).Success?
    ensures Threaded(DeconvBlocks(inCh, outs, ks).value, inCh)
    ensures OutChannels(DeconvBlocks(inCh, outs, ks).value, inCh) == LastOr(inCh, outs)
    decreases |outs|
  {
    if outs != [] {
      var n := |outs| - 1;
      DeconvBlocksThreaded(inCh, outs[..n], ks[..n]);
      var (p, op) := DeconvPadding(ks[n]).value;
      BlockThreaded(DeconvCfg(LastOr(inCh, outs[..n]), outs[n], ks[n], p, op));
      ThreadedAppend(DeconvBlocks(inCh, outs[..n], ks[..n]).value,
                     Block(DeconvCfg(LastOr(inCh, outs[..n]), outs[n], ks[n], p, op)), inCh);
    }
  }

  /** Spatial output size of one module for input size h (dilation 1, as
      torch computes it): a convolution gives floor((h + 2p - k) / s) + 1, a
      deconvolution (h - 1) * s - 2p + k + output_padding; norm and
      activation keep the size. */
  function OutSize(m: Module, h: int): int {
    match m
    case Layer(cfg) =>
      if cfg.kind == Conv2d then (h + 2 * cfg.padding - cfg.kernelSize) / cfg.stride + 1
      else (h - 1) * cfg.stride - 2 * cfg.padding + cfg.kernelSize
           + (if cfg.outputPadding.Some? then cfg.outputPadding.value else 0)
    case _ => h
  }

  function StageSize(mods: seq<Module>, h: int): int
    decreases |mods|
  {
    if mods == [] then h else StageSize(mods[1..], OutSize(mods[0], h))
  }

  lemma {:induction false} StageSizeAppend(a: seq<Module>, b: seq<Module>, h: int)
    ensures StageSize(a + b, h) == StageSize(b, StageSize(a, h))
    decreases |a|
  {
    if a != [] {
      assert (a + b)[0] == a[0] && (a + b)[1..] == a[1..] + b;
      StageSizeAppend(a[1..], b, OutSize(a[0], h));
    } else {
      assert a + b == b;
    }
  }

  lemma BlockSize(cfg: LayerCfg, h: int)
    ensures StageSize(Block(cfg), h) == OutSize(Layer(cfg), h)
  {
    var h' := OutSize(Layer(cfg), h);
    var t: seq<Module> := [SiLU];
    assert t[1..] == [];
    assert StageSize(t, h') == h';
    var u: seq<Module> := [InstanceNorm(cfg.outChannels), SiLU];
    assert u[1..] == t;
    assert StageSize(u, h') == h';
    assert Block(cfg)[1..] == u;
  }

  /** A convolution from the conv stage keeps the spatial size exactly when
      its kernel size is odd; an even kernel loses one pixel. */
  lemma ConvKeepsSizeIffOdd(inCh: int, outCh: int, k: int, h: int)
    ensures OutSize(Layer(ConvCfg(inCh, outCh, k)), h) == (if k % 2 == 1 then h else h - 1)
  {
    var p := (k - 1) / 2;
    if k % 2 == 1 {
      assert 2 * p == k - 1;
    } else {
      assert 2 * p == k - 2;
    }
    assert (h + 2 * p - k) / 1 == h + 2 * p - k;
  }

  function Pow2(n: nat): nat {
    if n == 0 then 1 else 2 * Pow2(n - 1)
  }

  /** Every deconvolution block doubles the spatial size, so n blocks scale
      it by 2^n (64 -> 512 for the three default blocks). */
  lemma {:induction false} DeconvBlocksScale(inCh: int, outs: seq<int>, ks: seq<int>, h: int)
    requires |outs| == |ks|
    requires DeconvBlocks(inCh, outs, ks).Success?
    ensures StageSize(DeconvBlocks(inCh, outs, ks).value, h) == h * Pow2(|outs|)
    decreases |outs|
  {
    if outs != [] {
      var n := |outs| - 1;
      DeconvBlocksScale(inCh, outs[..n], ks[..n], h);
      var (p, op) := DeconvPadding(ks[n]).value;
      var prefix := DeconvBlocks(inCh, outs[..n], ks[..n]).value;
      var block := Block(DeconvCfg(LastOr(inCh, outs[..n]), outs[n], ks[n], p, op));
      StageSizeAppend(prefix, block, h);
      var h' := h * Pow2(n);
      BlockSize(DeconvCfg(LastOr(inCh, outs[..n]), outs[n], ks[n], p, op), h');
      assert h * Pow2(n + 1) == 2 * h';
    }
  }

  /** Convolution blocks whose kernel sizes are all odd keep the spatial
      size (512 -> 512 in the shape comments). */
  lemma {:induction false} ConvBlocksKeepSize(inCh: int, outs: seq<int>, ks: seq<int>, h: int)
    requires |outs| == |ks|
    requires forall i :: 0 <= i < |ks| ==> ks[i] % 2 == 1
    ensures StageSize(ConvBlocks(inCh, outs, ks), h) == h
    decreases |outs|
  {
    if outs != [] {
      var n := |outs| - 1;
      ConvBlocksKeepSize(inCh, outs[..n], ks[..n], h);
      var block := Block(ConvCfg(LastOr(inCh, outs[..n]), outs[n], ks[n]));
      StageSizeAppend(ConvBlocks(inCh, outs[..n], ks[..n]), block, h);
      ConvKeepsSizeIffOdd(LastOr(inCh, outs[..n]), outs[n], ks[n], h);
      BlockSize(ConvCfg(LastOr(inCh, outs[..n]), outs[n], ks[n]), h);
    }
  }

  // ---------------------------------------------------------------------------
  // The head (VitHead.__init__, lines 17-65)
  // ---------------------------------------------------------------------------

  /** Python truthiness of an optional integer sequence: neither None nor empty. */
  predicate Truthy(s: Option<seq<int>>) {
    s.Some? && s.value != []
  }

  /** The entries a possibly-None list contributes: none unless it is truthy. */
  function Entries(s: Option<seq<int>>): seq<int> {
    if Truthy(s) then s.value else []
  }

  /** The check of lines 30-37 and 48-55: a non-empty out-channel list needs
      a kernel-size list of the same length. */
  predicate Mismatched(outs: Option<seq<int>>, ks: Option<seq<int>>) {
    Truthy(outs) && (ks.None? || |outs.value| != |ks.value|)
  }

  function Modules(s: Stage): seq<Module> {
    match s
    case Identity => []
    case Sequential(mods) => mods
  }

  datatype Stages = Stages(deconv: Stage, conv: Stage)

  /** What VitHead.__init__ decides: both stages, or the first ValueError
      it raises, in the order the source checks. */
  function Configure(inChannels: int, deconvOuts: Option<seq<int>>, deconvKs: Option<seq<int>>,
                     convOuts: Option<seq<int>>, convKs: Option<seq<int>>): Result<Stages, Error>
  {
    if Mismatched(deconvOuts, deconvKs) then Failure(LengthMismatch(DeconvStage))
    else
      var deconv := if Truthy(deconvOuts) then DeconvBlocks(inChannels, deconvOuts.value, deconvKs.value)
                    else Success([]);
      if deconv.Failure? then Failure(deconv.error)
      else if Mismatched(convOuts, convKs) then Failure(LengthMismatch(ConvStage))
      else
        var c := LastOr(inChannels, Entries(deconvOuts));
        Success(Stages(
          if Truthy(deconvOuts) then Sequential(deconv.value) else Identity,
          if Truthy(convOuts) then Sequential(ConvBlocks(c, convOuts.value, convKs.value)) else Identity))
  }

  /** __init__ raises exactly when a non-empty out-channel list comes with a
      missing or differently sized kernel list, or a deconvolution kernel
      size has no padding rule; the deconvolution checks come first. */
  lemma ConfigureErrors(inChannels: int, deconvOuts: Option<seq<int>>, deconvKs: Option<seq<int>>,
                        convOuts: Option<seq<int>>, convKs: Option<seq<int>>)
    ensures var r := Configure(inChannels, deconvOuts, deconvKs, convOuts, convKs);
      var badKernel := !Mismatched(deconvOuts, deconvKs) && Truthy(deconvOuts)
                       && exists i :: 0 <= i < |deconvKs.value| && !Supported(deconvKs.value[i]);
      && (r.Failure? <==> Mismatched(deconvOuts, deconvKs) || badKernel || Mismatched(convOuts, convKs))
      && (Mismatched(deconvOuts, deconvKs) ==> r == Failure(LengthMismatch(DeconvStage)))
      && (badKernel ==> r.Failure? && r.error.UnsupportedKernel?)
      && ((!Mismatched(deconvOuts, deconvKs) && !badKernel && Mismatched(convOuts, convKs))
          ==> r == Failure(LengthMismatch(ConvStage)))
  {
    if !Mismatched(deconvOuts, deconvKs) && Truthy(deconvOuts) {
      DeconvBlocksErrors(inChannels, deconvOuts.value, deconvKs.value);
    }
  }

  /** An empty or None deconvolution out-channel list gives an Identity
      deconvolution stage, and its kernel list is never looked at, whatever
      it holds and whatever the convolution stage is. */
  lemma ConfigureIdentityDeconv(inChannels: int, deconvOuts: Option<seq<int>>, deconvKs: Option<seq<int>>,
                                deconvKs': Option<seq<int>>, convOuts: Option<seq<int>>, convKs: Option<seq<int>>)
    requires !Truthy(deconvOuts)
    ensures var r := Configure(inChannels, deconvOuts, deconvKs, convOuts, convKs);
      && r == Configure(inChannels, deconvOuts, deconvKs', convOuts, convKs)
      && (r.Success? ==> r.value.deconv == Identity)
  {
  }

  /** An empty or None convolution out-channel list gives an Identity
      convolution stage, and its kernel list is never looked at, whatever it
      holds and whatever the deconvolution stage is. */
  lemma ConfigureIdentityConv(inChannels: int, deconvOuts: Option<seq<int>>, deconvKs: Option<seq<int>>,
                              convOuts: Option<seq<int>>, convKs: Option<seq<int>>, convKs': Option<seq<int>>)
    requires !Truthy(convOuts)
    ensures var r := Configure(inChannels, deconvOuts, deconvKs, convOuts, convKs);
      && r == Configure(inChannels, deconvOuts, deconvKs, convOuts, convKs')
      && (r.Success? ==> r.value.conv == Identity)
  {
  }

  /** A built head is one threaded chain: the deconvolution blocks start at
      the head's in-channels, the convolution blocks at the last
      deconvolution out-channels (or the head's in-channels when there are
      none), and the chain ends at the last out-channel entry. Each entry
      gives exactly three modules. */
  lemma ConfigureThreadsChannels(inChannels: int, deconvOuts: Option<seq<int>>, deconvKs: Option<seq<int>>,
                                 convOuts: Option<seq<int>>, convKs: Option<seq<int>>)
    requires Configure(inChannels, deconvOuts, deconvKs, convOuts, convKs).Success?
    ensures var s := Configure(inChannels, deconvOuts, deconvKs, convOuts, convKs).value;
      var mid := LastOr(inChannels, Entries(deconvOuts));
      && |Modules(s.deconv)| == 3 * |Entries(deconvOuts)|
      && |Modules(s.conv)| == 3 * |Entries(convOuts)|
      && Threaded(Modules(s.deconv), inChannels)
      && OutChannels(Modules(s.deconv), inChannels) == mid
      && Threaded(Modules(s.deconv) + Modules(s.conv), inChannels)
      && OutChannels(Modules(s.deconv) + Modules(s.conv), inChannels) == LastOr(mid, Entries(convOuts))
  {
    var s := Configure(inChannels, deconvOuts, deconvKs, convOuts, convKs).value;
    var mid := LastOr(inChannels, Entries(deconvOuts));
    if Truthy(deconvOuts) {
      DeconvBlocksThreaded(inChannels, deconvOuts.value, deconvKs.value);
      DeconvBlocksLayout(inChannels, deconvOuts.value, deconvKs.value);
    }
    if Truthy(convOuts) {
      ConvBlocksThreaded(mid, convOuts.value, convKs.value);
      ConvBlocksLayout(mid, convOuts.value, convKs.value);
    }
    ThreadedAppend(Modules(s.deconv), Modules(s.conv), inChannels);
  }

  /** A built head scales the spatial size by 2^(number of deconvolution
      blocks) when every convolution kernel size is odd: 64 -> 512 with
      three deconvolution blocks, as the shape comments in forward say. */
  lemma ConfigureSpatialSize(inChannels: int, deconvOuts: Option<seq<int>>, deconvKs: Option<seq<int>>,
                             convOuts: Option<seq<int>>, convKs: Option<seq<int>>, h: int)
    requires Configure(inChannels, deconvOuts, deconvKs, convOuts, convKs).Success?
    requires Truthy(convOuts) ==> forall i :: 0 <= i < |convKs.value| ==> convKs.value[i] % 2 == 1
    ensures var s := Configure(inChannels, deconvOuts, deconvKs, convOuts, convKs).value;
      StageSize(Modules(s.deconv) + Modules(s.conv), h) == h * Pow2(|Entries(deconvOuts)|)
  {
    var s := Configure(inChannels, deconvOuts, deconvKs, convOuts, convKs).value;
    var mid := LastOr(inChannels, Entries(deconvOuts));
    StageSizeAppend(Modules(s.deconv), Modules(s.conv), h);
    if Truthy(deconvOuts) {
      DeconvBlocksScale(inChannels, deconvOuts.value, deconvKs.value, h);
    }
    if Truthy(convOuts) {
      ConvBlocksKeepSize(mid, convOuts.value, convKs.value, h * Pow2(|Entries(deconvOuts)|));
    }
  }

  /** The default arguments (three 256-channel deconvolution blocks with
      kernel 4, no convolution blocks) on 64 x 64 features: nine modules,
      256 channels out, 512 x 512 spatial size. */
  lemma DefaultHead(inChannels: int)
    ensures var r := Configure(inChannels, Some([256, 256, 256]), Some([4, 4, 4]), None, None);
      && r.Success?
      && r.value.conv == Identity
      && |Modules(r.value.deconv)| == 9
      && OutChannels(Modules(r.value.deconv), inChannels) == 256
      && StageSize(Modules(r.value.deconv), 64) == 512
  {
    var outs, ks := [256, 256, 256], [4, 4, 4];
    DeconvBlocksErrors(inChannels, outs, ks);
    assert forall i :: 0 <= i < |ks| ==> Supported(ks[i]);
    ConfigureThreadsChannels(inChannels, Some(outs), Some(ks), None, None);
    ConfigureSpatialSize(inChannels, Some(outs), Some(ks), None, None, 64);
    var mods := Modules(Configure(inChannels, Some(outs), Some(ks), None, None).value.deconv);
    assert mods + [] == mods;
    assert Pow2(3) == 8;
  }

  // ---------------------------------------------------------------------------
  // The head object
  // ---------------------------------------------------------------------------

  class VitHead {
    var inChannels: int
    var interpolateMode: string
    var deconvLayers: Stage
    var convLayers: Stage

    /** The part of BaseDecodeHead.__init__ this model needs: it records
        in_channels. Both stages are Identity until Init builds them. */
    constructor (inChannels: int)
      ensures this.inChannels == inChannels
      ensures deconvLayers == Identity && convLayers == Identity
    {
      this.inChannels := inChannels;
      interpolateMode := "bilinear";
      deconvLayers := Identity;
      convLayers := Identity;
    }

    /** The rest of VitHead.__init__: stores interpolate_mode, validates
        and builds the deconvolution stage, then the convolution stage fed
        with the channels the first one ends at. Returns the ValueError it
        raises, if any. */
    method Init(deconvOutChannels: Option<seq<int>>, deconvKernelSizes: Option<seq<int>>,
                convOutChannels: Option<seq<int>>, convKernelSizes: Option<seq<int>>,
                interpolateMode: string)
      returns (err: Option<Error>)
      modifies this
      ensures this.inChannels == old(this.inChannels) && this.interpolateMode == interpolateMode
      ensures match Configure(inChannels, deconvOutChannels, deconvKernelSizes, convOutChannels, convKernelSizes)
        case Success(s) => err == None && deconvLayers == s.deconv && convLayers == s.conv
        case Failure(e) => err == Some(e)
      ensures Mismatched(deconvOutChannels, deconvKernelSizes) ==>
        deconvLayers == old(deconvLayers) && convLayers == old(convLayers)
    {
      this.interpolateMode := interpolateMode;
      var c := inChannels;
      if Truthy(deconvOutChannels) {
        if deconvKernelSizes.None? || |deconvOutChannels.value| != |deconvKernelSizes.value| {
          return Some(LengthMismatch(DeconvStage));
        }
        var built := MakeDeconvLayers(c, deconvOutChannels.value, deconvKernelSizes.value);
        assert deconvOutChannels.value[..|deconvOutChannels.value|] == deconvOutChannels.value;
        assert deconvKernelSizes.value[..|deconvKernelSizes.value|] == deconvKernelSizes.value;
        if built.Failure? {
          return Some(built.error);
        }
        deconvLayers := Sequential(built.value);
        c := deconvOutChannels.value[|deconvOutChannels.value| - 1];
      } else {
        deconvLayers := Identity;
      }
      if Truthy(convOutChannels) {
        if convKernelSizes.None? || |convOutChannels.value| != |convKernelSizes.value| {
          return Some(LengthMismatch(ConvStage));
        }
        var layers := MakeConvLayers(c, convOutChannels.value, convKernelSizes.value);
        assert convOutChannels.value[..|convOutChannels.value|] == convOutChannels.value;
        assert convKernelSizes.value[..|convKernelSizes.value|] == convKernelSizes.value;
        convLayers := Sequential(layers);
      } else {
        convLayers := Identity;
      }
      err := None;
    }
  }
}
