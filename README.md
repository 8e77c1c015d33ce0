# MILAN attention masking and the VitHead layer stack, in Dafny

This project models two algorithmic pieces of a vision-transformer code base
(masked-image pretraining and dense-prediction decode heads) and proves what
their code promises.

**MILAN attention masking** (`milan.dfy`, module `Milan`). A batch holds N
samples of L patch tokens with D features each. For every sample the sampler
draws an order of the L patch indices (`ids_shuffle`). The code then takes its
argsort (`ids_restore`) and splits the order at `len_keep = int(L * (1 -
mask_ratio))` into `ids_keep` and `ids_dump`. It gathers the kept tokens
(`x_masked`) and builds a 0/1 mask that it unshuffles with `ids_restore`. On
the masked path of the encoder's forward, the class token is put in front of
the kept tokens. The loss feeds the class token's attention row, without its
own column, in as importance. Token values and importance weights are opaque
type parameters. Indices are natural numbers. The sampler is represented by
the order it drew, which must be a permutation. The mask is an imperative
method over a two-dimensional array, as in the source: a tensor of ones whose
first `len_keep` columns are zeroed in place. The rest is pure functions with
lemmas.

**VitHead** (`vit_head.dfy`, module `DecodeHeads`). The head checks two pairs
of lists (deconvolution out-channels and kernel sizes, convolution
out-channels and kernel sizes) and builds one block per pair. A block is a
layer config record, an InstanceNorm over its out-channels, and a SiLU. The
checks are: lengths must match, and each deconvolution kernel must be in the
padding table. Channels are threaded from block to block and from the first
stage to the second. `_make_conv_layers` and `_make_deconv_layers` are loop
methods that are proved equal to the spec functions `ConvBlocks` and
`DeconvBlocks`. `__init__` is the class `VitHead`: its constructor stands for
the base class's part, and `Init` does the rest. `Init`'s result and new fields
are tied to the spec function `Configure`. The spatial-size arithmetic behind
the shape comments (64 -> 512 over three deconvolutions, 512 -> 512 through
odd-kernel convolutions) is proved on the built module lists.

Where the documentation and the code disagree, the model follows the code:

- The forward docstring of `MILANViT` says the encoder sees `L * mask_ratio`
  tokens. The code keeps `int(L * (1 - mask_ratio))` tokens plus the class
  token.
- The same docstring describes the `importance is None` and tensor branches
  the other way round. In the code, `None` runs the plain unmasked forward.

## Model

| member | source | states |
|---|---|---|
| Milan.PermutationCovers | pretrain/mmpretrain/models/selfsup/milan.py:91 | L distinct indices below L take every value below L, so drawing L of L without replacement yields a permutation |
| Milan.Argsort | pretrain/mmpretrain/models/selfsup/milan.py:92 | ids_restore has L entries, each a position in ids_shuffle at which the entry's own index stands |
| Milan.RestoreInvertsShuffle | pretrain/mmpretrain/models/selfsup/milan.py:91-92 | ids_restore is a permutation, and `ids_shuffle[ids_restore[i]] == i` and `ids_restore[ids_shuffle[j]] == j` for every i, j |
| Milan.ArgsortIsTheSortingOrder | pretrain/mmpretrain/models/selfsup/milan.py:92 | a permutation q lists the values of ids_shuffle in ascending order if and only if q is ids_restore (argsort is unique and is the inverse) |
| Milan.LenKeep | pretrain/mmpretrain/models/selfsup/milan.py:86 | for a ratio in [0, 1], len_keep is at most L and is the floor of L * (1 - ratio) |
| Milan.KeepDumpPartition | pretrain/mmpretrain/models/selfsup/milan.py:95-96 | ids_keep ++ ids_dump == ids_shuffle, with len_keep and L - len_keep entries; every patch index lies in exactly one of them, and nothing else does |
| Milan.GatherRepeatedIdsCopiesTokens | pretrain/mmpretrain/models/selfsup/milan.py:97-98 | gathering along dim 1 with the ids repeated over the D features copies whole tokens: row j is input token ids[j], still D long |
| Milan.GatherPermutes | pretrain/mmpretrain/models/selfsup/milan.py:97-104 | gathering a row by a permutation of its positions gives the same multiset of entries |
| Milan.MaskedTokens | pretrain/mmpretrain/models/selfsup/milan.py:95-98 | x_masked has len_keep tokens of D features, and token j equals input token ids_keep[j] |
| Milan.KeptAndDumpedTokensPermuteInput | pretrain/mmpretrain/models/selfsup/milan.py:95-98 | the kept tokens followed by the dumped ones are a permutation of the input tokens: no token is lost or duplicated |
| Milan.BinaryMask | pretrain/mmpretrain/models/selfsup/milan.py:100-104 | the N x L mask, after ones, the in-place zeroing of the first len_keep columns and the gather by ids_restore, is 0 at (b, i) exactly when ids_restore[b][i] < len_keep, and 1 otherwise |
| Milan.ShuffledMaskCounts | pretrain/mmpretrain/models/selfsup/milan.py:101-102 | before unshuffling, a mask row holds len_keep zeros and L - len_keep ones |
| Milan.MaskMarksKeptPatches | pretrain/mmpretrain/models/selfsup/milan.py:100-104 | an unshuffled mask row is 0 exactly at the indices in ids_keep and 1 exactly at those in ids_dump; it has len_keep zeros and L - len_keep ones |
| Milan.AttentionMaskingResult | pretrain/mmpretrain/models/selfsup/milan.py:85-106 | for every sample: x_masked is len_keep x D with token j = x[ids_keep[j]]; ids_keep ++ ids_dump is the drawn order; ids_restore is a permutation that inverts it both ways |
| Milan.MaskingIsPerSample | pretrain/mmpretrain/models/selfsup/milan.py:91-104 | a sample's four outputs depend only on that sample's tokens and drawn order |
| Milan.Forward | pretrain/mmpretrain/models/selfsup/milan.py:142-158 | the masking branch is taken exactly when importance is not None |
| Milan.MaskedForwardSequence | pretrain/mmpretrain/models/selfsup/milan.py:151-158 | on the masked path each sample's sequence has len_keep + 1 tokens of D features: the class token first, then the kept tokens in ids_keep order; the returned ids_keep is the first len_keep entries of the drawn order, ids_dump the rest, and ids_restore its argsort |
| Milan.ClsImportanceShape | pretrain/mmpretrain/models/selfsup/milan.py:194 | from an N x (L+1) x (L+1) attention map, the slice gives N rows of L weights, and weight i is the class token's attention to patch i |
| Milan.LossTakesMaskedPath | pretrain/mmpretrain/models/selfsup/milan.py:193-196 | with the sliced attention as importance, the importance has L entries per sample and the backbone always takes the masked path with len_keep + 1 tokens |
| DecodeHeads.MakeConvLayers | seg/mmseg/models/decode_heads/vit_head.py:67-88 | the loop over zipped lists builds exactly ConvBlocks of the pairs it visits, with channels threaded through the local in_channels |
| DecodeHeads.ConvBlocksLayout | seg/mmseg/models/decode_heads/vit_head.py:72-86 | n pairs give 3n modules; block i is a Conv2d from the previous out-channels (the head's at i = 0) to outs[i], kernel ks[i], stride 1, padding (ks[i]-1)//2, then InstanceNorm(outs[i]), then SiLU |
| DecodeHeads.DeconvPadding | seg/mmseg/models/decode_heads/vit_head.py:98-110 | kernel 4 gives padding 1 and output_padding 0, kernel 3 gives 1/1, kernel 2 gives 0/0, any other size is rejected; every tabled entry satisfies k - 2p + op == 2 |
| DecodeHeads.DeconvFailureSticks | seg/mmseg/models/decode_heads/vit_head.py:107-110 | once a pair raises, the pairs after it do not change the outcome |
| DecodeHeads.MakeDeconvLayers | seg/mmseg/models/decode_heads/vit_head.py:90-125 | the loop builds exactly DeconvBlocks of the pairs it visits, and returns the ValueError for the first unsupported kernel size |
| DecodeHeads.DeconvBlocksErrors | seg/mmseg/models/decode_heads/vit_head.py:96-110 | building succeeds if and only if every kernel size is in the table; on failure the error names the first unsupported size |
| DecodeHeads.DeconvBlocksLayout | seg/mmseg/models/decode_heads/vit_head.py:95-123 | n pairs give 3n modules; block i is a deconvolution from the previous out-channels to outs[i], kernel ks[i], stride 2, the tabled padding and output padding, bias False, then InstanceNorm(outs[i]), then SiLU |
| DecodeHeads.ThreadedAppend | seg/mmseg/models/decode_heads/vit_head.py:44-61 | two module lists chain into one threaded list exactly when the second starts at the channels the first ends at |
| DecodeHeads.ConvBlocksThreaded | seg/mmseg/models/decode_heads/vit_head.py:83-86 | each convolution block takes the channels the previous one produced, and the stage ends at the last out-channel entry |
| DecodeHeads.DeconvBlocksThreaded | seg/mmseg/models/decode_heads/vit_head.py:120-123 | the same for the deconvolution blocks |
| DecodeHeads.ConvKeepsSizeIffOdd | seg/mmseg/models/decode_heads/vit_head.py:75-82 | a stage convolution keeps the spatial size if and only if its kernel is odd; an even kernel loses one pixel |
| DecodeHeads.DeconvBlocksScale | seg/mmseg/models/decode_heads/vit_head.py:111-119 | each deconvolution block doubles the spatial size: (H-1)*2 - 2p + k + op = 2H, so n blocks scale it by 2^n |
| DecodeHeads.ConvBlocksKeepSize | seg/mmseg/models/decode_heads/vit_head.py:75-82 | convolution blocks whose kernel sizes are all odd keep the spatial size |
| DecodeHeads.ConfigureErrors | seg/mmseg/models/decode_heads/vit_head.py:30-63 | __init__ fails exactly when: a non-empty deconv list has a None or different-length kernel list; or a deconv kernel is unsupported; or the conv lists mismatch. Errors come in that order |
| DecodeHeads.ConfigureIdentityDeconv | seg/mmseg/models/decode_heads/vit_head.py:30-46 | an empty or None deconvolution out-channel list gives an Identity deconvolution stage, whatever the convolution arguments are, and the deconvolution kernel list is ignored whatever it holds |
| DecodeHeads.ConfigureIdentityConv | seg/mmseg/models/decode_heads/vit_head.py:48-63 | an empty or None convolution out-channel list gives an Identity convolution stage, whatever the deconvolution arguments are, and the convolution kernel list is ignored whatever it holds |
| DecodeHeads.ConfigureThreadsChannels | seg/mmseg/models/decode_heads/vit_head.py:39-61 | each entry gives three modules; the deconv stage starts at the head's in_channels; the conv stage starts at the last deconv out-channel (or in_channels); the chain ends at the last out-channel entry |
| DecodeHeads.ConfigureSpatialSize | seg/mmseg/models/decode_heads/vit_head.py:127-130 | with odd conv kernels a built head scales the spatial size by 2^(number of deconv blocks), as the shape comments in forward assume |
| DecodeHeads.DefaultHead | seg/mmseg/models/decode_heads/vit_head.py:17-19 | the default arguments build nine modules ending at 256 channels and take 64 x 64 to 512 x 512 |
| DecodeHeads.VitHead.constructor | seg/mmseg/models/decode_heads/vit_head.py:24-28 | records in_channels; both stages start as Identity |
| DecodeHeads.VitHead.Init | seg/mmseg/models/decode_heads/vit_head.py:17-65 | stores interpolate_mode and leaves in_channels alone. The error and both stage fields are what Configure says. A deconv list mismatch raises before any stage field is assigned |

## Left out

- CLIPGenerator (the CLIP target generator) is not part of this model. It wraps an external CLIP model and checkpoint loader. Its forward returns one value where MILAN.loss unpacks two; the model starts from the attention map.
- `torch.multinomial` is random. The model takes the order it drew as an input and relies only on that order being a permutation. The claim that more important patches are more likely to be kept is probabilistic and is not modelled. The sampler's own RuntimeErrors are not modelled either: it raises on a negative, infinite or NaN weight and on a row of weights that sums to 0. The weights here are attention probabilities, which never trigger these errors.
- Patch embedding, positional-embedding addition, the transformer layers and the final norm are left out. They are floating-point tensor work done by external modules. The loop that rebinds `x` over the layers is one of these. `Forward` stops at the sequence those layers receive.
- The unmasked branch, `super(MAEViT, self).forward(x)`, belongs to an external class. `Forward` returns `Delegated` for it.
- The neck and head calls in MILAN.loss are left out. They are external modules.
- Milan.LenKeep: computed over exact rationals. The source multiplies floats, and rounding can make `int(...)` one lower than the exact floor. A `mask_ratio` outside [0, 1] is excluded by a precondition. For such a ratio the source would get a negative or an over-long `len_keep`, and Python slicing would clamp or wrap it.
- Milan.BinaryMask: the source builds this mask and then drops it: `attention_masking` returns only `x_masked`, `ids_restore`, `ids_keep` and `ids_dump`. The model keeps the mask as its own method so its properties can be stated.
- DecodeHeads.VitHead.Init: its `Failure` return stands for the ValueError that `__init__` raises. In Python no object exists after that error, but in the model the caller still holds the `VitHead`. The constructor's Identity stages and `"bilinear"` mode are placeholders for attributes the source only assigns in `__init__`.
- BaseDecodeHead is not part of this model. Its `in_channels` may be a list under multi-input transforms; the model takes a single integer.
- The VitHead framework hooks (`forward`, `loss`, `_transform_inputs`, `cls_seg`, `loss_by_feat`) are left out. Only the spatial-size arithmetic behind the shape comments in `forward` is modelled.
- `build_conv_layer`, `build_upsample_layer`, `InstanceNorm2d` and `SiLU` are library constructors. They appear only as the config records they receive. Nothing checks that channel counts or kernel sizes are positive, since those constructors would.
- The `final_layer` argument of VitHead is accepted but never used by the code, so it is not modelled. `interpolate_mode` is only stored.
- The cosine-similarity loss, the pretraining config, the demo scripts and the depth test script are not part of this model. They are numerics, configuration or I/O.
