/**
 * The channel bookkeeping of the ResNet-152 variant: each bottleneck block
 * abstracted to its widths, stride and shortcut kind, the layer builder that
 * threads `in_planes` from block to block, and the four-stage network.
 * Convolutions, batch norms and their weights are not modelled.
 */
module ResNetModel {

  /** `Bottleneck.expansion`: the last 1x1 convolution widens `planes` fourfold. */
  const Expansion := 4

  /** Width of the stem convolution, and `in_planes` before the first layer. */
  const StemPlanes := 64

  /** `planes` and `stride` of `layer1` .. `layer4`. */
  const StagePlanes: seq<int> := [64, 128, 256, 512]
  const StageStrides: seq<int> := [1, 2, 2, 2]

  /** A bottleneck block: input width, inner width, stride of the 3x3
      convolution, and whether the shortcut is a 1x1 projection (true) or
      the identity (false). */
  datatype Block = Block(inPlanes: int, planes: int, stride: int, hasProjection: bool)

  /** Channels the residual branch produces (`conv3`/`bn3`). */
  function OutChannels(b: Block): int { b.planes * Expansion }

  /** Channels and stride of the shortcut branch: the projection maps to
      `planes * 4` with the block's stride; the identity keeps its input. */
  function ShortcutChannels(b: Block): int { if b.hasProjection then b.planes * Expansion else b.inPlanes }
  function ShortcutStride(b: Block): int { if b.hasProjection then b.stride else 1 }

  /** `Bottleneck(in_planes, planes, stride)`. The shortcut is a projection
      exactly when the identity would not match the residual branch, so the
      sum `out += shortcut(x)` always adds tensors of one shape. */
  function Bottleneck(inPlanes: int, planes: int, stride: int): (b: Block)
    ensures b.inPlanes == inPlanes && b.planes == planes && b.stride == stride
    ensures ShortcutChannels(b) == OutChannels(b) && ShortcutStride(b) == b.stride
    ensures !b.hasProjection <==> stride == 1 && inPlanes == OutChannels(b)
  {
    Block(inPlanes, planes, stride, stride != 1 || inPlanes != planes * Expansion)
  }

  /** Python's `[1] * k`: empty when `k <= 0`. */
  function Ones(k: int): (s: seq<int>)
    ensures |s| == if k <= 0 then 0 else k
    ensures forall i :: 0 <= i < |s| ==> s[i] == 1
  {
    if k <= 0 then [] else [1] + Ones(k - 1)
  }

  /** `strides = [stride] + [1] * (num_blocks - 1)`: one block per requested
      block, but still one block when `num_blocks <= 0`. */
  function Strides(stride: int, numBlocks: int): (s: seq<int>)
    ensures |s| == if numBlocks >= 1 then numBlocks else 1
    ensures s[0] == stride
    ensures forall i :: 1 <= i < |s| ==> s[i] == 1
  {
    [stride] + Ones(numBlocks - 1)
  }

  /** The blocks `_make_layer` appends for the given strides, starting from
      `in_planes`: the first block reads `inPlanes`, each later block reads
      the previous block's output width. */
  function BuildLayer(inPlanes: int, planes: int, strides: seq<int>): (layer: seq<Block>)
    ensures |layer| == |strides|
    ensures forall k :: 0 <= k < |layer| ==> layer[k] == Bottleneck(if k == 0 then inPlanes else planes * Expansion, planes, strides[k])
    decreases |strides|
  {
    if strides == [] then []
    else [Bottleneck(inPlanes, planes, strides[0])] + BuildLayer(planes * Expansion, planes, strides[1..])
  }

  /** Each block after the first reads exactly the width its predecessor
      produces, so consecutive blocks of a layer fit together. */
  lemma LayerChains(inPlanes: int, planes: int, strides: seq<int>, k: int)
    requires 1 <= k < |strides|
    ensures var layer := BuildLayer(inPlanes, planes, strides);
            layer[k].inPlanes == OutChannels(layer[k - 1])
  {
    var layer := BuildLayer(inPlanes, planes, strides);
    assert layer[k - 1].planes == planes;
  }

  /** A whole `_make_layer(block, planes, num_blocks, stride)` call: only its
      first block may carry a projection, and it does so exactly when the
      stride or the width changes. */
  lemma LayerProjections(inPlanes: int, planes: int, numBlocks: int, stride: int)
    ensures var layer := BuildLayer(inPlanes, planes, Strides(stride, numBlocks));
            forall k :: 0 <= k < |layer| ==>
              (layer[k].hasProjection <==> k == 0 && (stride != 1 || inPlanes != planes * Expansion))
  {
    var strides := Strides(stride, numBlocks);
    var layer := BuildLayer(inPlanes, planes, strides);
    forall k | 0 <= k < |layer|
      ensures layer[k].hasProjection <==> k == 0 && (stride != 1 || inPlanes != planes * Expansion)
    {
      assert layer[k] == Bottleneck(if k == 0 then inPlanes else planes * Expansion, planes, strides[k]);
    }
  }

  /** `in_planes` on entry to stage `l`: the stem width, then the output
      width of the previous stage. */
  function StageInPlanes(l: nat): int
    requires l < 4
  {
    if l == 0 then StemPlanes else StagePlanes[l - 1] * Expansion
  }

  /** The four layers `ResNet.__init__` builds from `num_blocks`. */
  function Layers(numBlocks: seq<int>): (layers: seq<seq<Block>>)
    requires |numBlocks| >= 4
    ensures |layers| == 4
  {
    seq(4, l requires 0 <= l < 4 => BuildLayer(StageInPlanes(l), StagePlanes[l], Strides(StageStrides[l], numBlocks[l])))
  }

  /** Whatever the block counts, every stage opens with its one projection
      block (stage 1 widens 64 to 256, the others halve the resolution), and
      every stage has as many blocks as requested (one if the count is not
      positive). */
  lemma {:induction false} StageShape(numBlocks: seq<int>)
    requires |numBlocks| >= 4
    ensures forall l, k :: 0 <= l < 4 && 0 <= k < |Layers(numBlocks)[l]| ==>
              (Layers(numBlocks)[l][k].hasProjection <==> k == 0)
    ensures forall l :: 0 <= l < 4 ==>
              |Layers(numBlocks)[l]| == if numBlocks[l] >= 1 then numBlocks[l] else 1
  {
    var layers: seq<seq<Block>> := Layers(numBlocks);
    forall l | 0 <= l < 4
      ensures forall k :: 0 <= k < |layers[l]| ==> (layers[l][k].hasProjection <==> k == 0)
      ensures |layers[l]| == if numBlocks[l] >= 1 then numBlocks[l] else 1
    {
      LayerProjections(StageInPlanes(l), StagePlanes[l], numBlocks[l], StageStrides[l]);
    }
  }

  /** The `ResNet152()` configuration `[3, 8, 36, 3]`: 50 bottleneck blocks,
      a projection on exactly the first block of each layer, and the last
      block's output is the 2048 = 512 * 4 features the classifier reads. */
  lemma ResNet152Shape()
    ensures var layers := Layers([3, 8, 36, 3]);
            |layers[0]| + |layers[1]| + |layers[2]| + |layers[3]| == 50 &&
            (forall l, k :: 0 <= l < 4 && 0 <= k < |layers[l]| ==> (layers[l][k].hasProjection <==> k == 0)) &&
            OutChannels(layers[3][|layers[3]| - 1]) == 2048 == StagePlanes[3] * Expansion
  {
    StageShape([3, 8, 36, 3]);
  }

  /** The network object: `in_planes` is the running width `_make_layer`
      threads through the four layers. */
  class ResNet {
    var inPlanes: int
    var layer1: seq<Block>
    var layer2: seq<Block>
    var layer3: seq<Block>
    var layer4: seq<Block>
    /** Input width and output width of the final `nn.Linear`. */
    var linearIn: int
    var numClasses: int

    /** `_make_layer`: appends one block per stride and sets `in_planes` to the
        block's output width after each. */
    method MakeLayer(planes: int, numBlocks: int, stride: int) returns (layer: seq<Block>)
      modifies this`inPlanes
      ensures layer == BuildLayer(old(inPlanes), planes, Strides(stride, numBlocks))
      ensures inPlanes == planes * Expansion
    {
      var strides := Strides(stride, numBlocks);
      layer := [];
      var i := 0;
      while i < |strides|
        invariant 0 <= i <= |strides|
        invariant layer + BuildLayer(inPlanes, planes, strides[i..]) == BuildLayer(old(inPlanes), planes, strides)
        invariant i > 0 ==> inPlanes == planes * Expansion
      {
        ghost var rest := strides[i..];
        assert rest[1..] == strides[i + 1..];
        assert BuildLayer(inPlanes, planes, rest) ==
               [Bottleneck(inPlanes, planes, strides[i])] + BuildLayer(planes * Expansion, planes, strides[i + 1..]);
        layer := layer + [Bottleneck(inPlanes, planes, strides[i])];
        inPlanes := planes * Expansion;
        i := i + 1;
      }
    }

    /** `ResNet.__init__(Bottleneck, num_blocks, num_classes)`. Indexing
        `num_blocks[3]` needs at least four entries; later ones are ignored. */
    constructor (numBlocks: seq<int>, numClasses: int)
      requires |numBlocks| >= 4
      ensures [layer1, layer2, layer3, layer4] == Layers(numBlocks)
      ensures inPlanes == StagePlanes[3] * Expansion == linearIn
      ensures this.numClasses == numClasses
    {
      inPlanes := StemPlanes;
      linearIn := 512 * Expansion;
      this.numClasses := numClasses;
      new;
      layer1 := MakeLayer(64, numBlocks[0], 1);
      layer2 := MakeLayer(128, numBlocks[1], 2);
      layer3 := MakeLayer(256, numBlocks[2], 2);
      layer4 := MakeLayer(512, numBlocks[3], 2);
    }
  }

  /** `ResNet152()`: the network with block counts `[3, 8, 36, 3]` and ten classes. */
  method ResNet152() returns (net: ResNet)
    ensures fresh(net)
    ensures [net.layer1, net.layer2, net.layer3, net.layer4] == Layers([3, 8, 36, 3])
    ensures net.linearIn == 2048 && net.numClasses == 10
  {
    net := new ResNet([3, 8, 36, 3], 10);
  }
}
