/** The descriptor-pool and font-texture layout computed when the renderer sets up its font:
    one memory pool holds the sampler descriptors followed by the texture descriptors. */
module PoolLayout {
  import opened Base

  /** Memory pools are created in whole 4 KiB pages. */
  const PoolAlignment: nat := 0x1000

  /** The descriptor slot the font texture and its sampler are registered under. */
  const FontDescriptorId: nat := 257

  /** `ALIGN_UP(n, 0x1000)`: the next page boundary at or above `n`. */
  function AlignUp(n: nat): (r: nat)
    ensures r % PoolAlignment == 0
    ensures n <= r < n + PoolAlignment
  {
    ((n + PoolAlignment - 1) / PoolAlignment) * PoolAlignment
  }

  /** No smaller page boundary would do. */
  lemma AlignUpLeast(n: nat, m: nat)
    requires m % PoolAlignment == 0 && n <= m
    ensures AlignUp(n) <= m
  {
    var k := (n + PoolAlignment - 1) / PoolAlignment;
    var j := m / PoolAlignment;
    assert m == j * PoolAlignment;
    assert n + PoolAlignment - 1 < (j + 1) * PoolAlignment;
    assert k <= j;
  }

  /** What the device and the foreign builders report or decide during font setup. The two
      descriptor maxima are compile-time constants of the backend. */
  datatype FontEnv = FontEnv(
    samplerDescriptorSize: nat,
    textureDescriptorSize: nat,
    maxSamplerDescriptors: nat,
    maxTextureDescriptors: nat,
    atlasWidth: nat,
    atlasHeight: nat,
    bytesPerPixel: nat,
    descriptorPoolOk: bool,     // MemoryPoolMaker::createPool for the descriptor memory
    samplerPoolOk: bool,        // SamplerPool::Initialize
    texturePoolOk: bool,        // TexturePool::Initialize
    fontPoolOk: bool,           // MemoryPoolMaker::createPool for the font texels
    fontTextureOk: bool,        // Texture::Initialize
    fontSamplerOk: bool,        // Sampler::Initialize
    fontTextureHandle: Handle)  // Device::GetTextureHandle(257, 257)

  /** The pools and registrations a successful setup leaves behind. */
  datatype FontLayout = FontLayout(
    descriptorPoolSize: nat,
    samplerPoolOffset: nat,
    samplerPoolBytes: nat,
    texturePoolOffset: nat,
    texturePoolBytes: nat,
    fontPoolSize: nat,
    textureId: nat,
    samplerId: nat,
    fontTextureHandle: Handle)

  /** The step at which setup gave up, in the order the steps run. */
  datatype FontError =
    | DescriptorPoolFailed | SamplerPoolFailed | TexturePoolFailed
    | FontPoolFailed | FontTextureFailed | FontSamplerFailed

  function StepIndex(e: FontError): nat {
    match e
    case DescriptorPoolFailed => 0
    case SamplerPoolFailed => 1
    case TexturePoolFailed => 2
    case FontPoolFailed => 3
    case FontTextureFailed => 4
    case FontSamplerFailed => 5
  }

  function StepOk(env: FontEnv, e: FontError): bool {
    match e
    case DescriptorPoolFailed => env.descriptorPoolOk
    case SamplerPoolFailed => env.samplerPoolOk
    case TexturePoolFailed => env.texturePoolOk
    case FontPoolFailed => env.fontPoolOk
    case FontTextureFailed => env.fontTextureOk
    case FontSamplerFailed => env.fontSamplerOk
  }

  predicate AllStepsOk(env: FontEnv) {
    && env.descriptorPoolOk && env.samplerPoolOk && env.texturePoolOk
    && env.fontPoolOk && env.fontTextureOk && env.fontSamplerOk
  }

  /** `setupFont`: size and carve the descriptor pool, then build and register the font. */
  function SetupFont(env: FontEnv): (r: Result<FontLayout, FontError>)
    ensures r.Success? <==> AllStepsOk(env)
    ensures r.Failure? ==> !StepOk(env, r.error)
    ensures r.Failure? ==> forall e: FontError :: StepIndex(e) < StepIndex(r.error) ==> StepOk(env, e)
    ensures r.Success? ==>
              var l := r.value;
              && l.samplerPoolOffset == 0
              && l.samplerPoolBytes == env.samplerDescriptorSize * env.maxSamplerDescriptors
              && l.texturePoolOffset == l.samplerPoolOffset + l.samplerPoolBytes
              && l.texturePoolBytes == env.textureDescriptorSize * env.maxTextureDescriptors
              && l.texturePoolOffset + l.texturePoolBytes <= l.descriptorPoolSize
              && l.descriptorPoolSize < l.texturePoolOffset + l.texturePoolBytes + PoolAlignment
              && l.descriptorPoolSize % PoolAlignment == 0
              && env.bytesPerPixel * env.atlasWidth * env.atlasHeight <= l.fontPoolSize
              && l.fontPoolSize % PoolAlignment == 0
              && l.textureId == FontDescriptorId && l.samplerId == FontDescriptorId
              && l.fontTextureHandle == env.fontTextureHandle
  {
    var sampMemPoolSize := env.samplerDescriptorSize * env.maxSamplerDescriptors;
    var texMemPoolSize := env.textureDescriptorSize * env.maxTextureDescriptors;
    var totalPoolSize := AlignUp(sampMemPoolSize + texMemPoolSize);
    if !env.descriptorPoolOk then Failure(DescriptorPoolFailed)
    else if !env.samplerPoolOk then Failure(SamplerPoolFailed)
    else if !env.texturePoolOk then Failure(TexturePoolFailed)
    else
      var texPoolSize := env.bytesPerPixel * env.atlasWidth * env.atlasHeight;
      var fontPoolSize := AlignUp(texPoolSize);
      if !env.fontPoolOk then Failure(FontPoolFailed)
      else if !env.fontTextureOk then Failure(FontTextureFailed)
      else if !env.fontSamplerOk then Failure(FontSamplerFailed)
      else Success(FontLayout(totalPoolSize, 0, sampMemPoolSize, sampMemPoolSize, texMemPoolSize,
                              fontPoolSize, FontDescriptorId, FontDescriptorId, env.fontTextureHandle))
  }

  /** The sampler and texture descriptor ranges never overlap and both fit in the pool. */
  lemma DescriptorRangesDisjoint(env: FontEnv, slot: nat)
    requires SetupFont(env).Success?
    ensures var l := SetupFont(env).value;
            !(l.samplerPoolOffset <= slot < l.samplerPoolOffset + l.samplerPoolBytes
              && l.texturePoolOffset <= slot < l.texturePoolOffset + l.texturePoolBytes)
    ensures var l := SetupFont(env).value;
            l.samplerPoolOffset + l.samplerPoolBytes <= l.descriptorPoolSize
  {
  }
}
