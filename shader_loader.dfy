/** The size arithmetic of `load_shader_module`: a SPIR-V file is read whole
    into a buffer of 32-bit words and handed to vkCreateShaderModule. The
    file is modelled only by whether it opens and by its byte length. */
module ShaderLoader {
  import opened Vulkan

  /** sizeof(uint32_t): SPIR-V code is a sequence of 32-bit words. */
  const WORD_BYTES: nat := 4

  /** A shader file as the loader sees it: it cannot be opened, or it has a byte length. */
  datatype ShaderFile = Unopenable | FileOfSize(bytes: nat)

  /** What the loader is given for one module: the file, and the reply of
      vkCreateShaderModule should it be called. */
  datatype ShaderReply = ShaderReply(file: ShaderFile, create: Created)

  /** The loader's verdict, the value of `*outShaderModule` afterwards, and the
      Vulkan calls it made. */
  datatype LoadResult = LoadResult(ok: bool, out: ShaderModule, calls: seq<Call>)

  /** Number of words allocated for a file: the division truncates. */
  function WordCount(fileBytes: nat): (w: nat)
    ensures w * WORD_BYTES <= fileBytes < (w + 1) * WORD_BYTES
  {
    fileBytes / WORD_BYTES
  }

  /** The `codeSize` passed to the driver, which is also the buffer's size in bytes. */
  function CodeSize(fileBytes: nat): (c: nat)
    ensures c % WORD_BYTES == 0
    ensures c <= fileBytes && fileBytes - c < WORD_BYTES
    ensures c == fileBytes <==> fileBytes % WORD_BYTES == 0
  {
    WORD_BYTES * WordCount(fileBytes)
  }

  /** The read of `fileBytes` bytes into the word buffer stays inside it. */
  predicate ReadInBounds(fileBytes: nat)
  {
    fileBytes <= CodeSize(fileBytes)
  }

  /** The read is in bounds exactly for files whose size is a whole number of words. */
  lemma ReadInBoundsIff(fileBytes: nat)
    ensures ReadInBounds(fileBytes) <==> fileBytes % WORD_BYTES == 0
  {
  }

  /** `load_shader_module` as written: it reads `bytes` bytes into a buffer of
      CodeSize(bytes) bytes whatever the size; `overrun` records whether that
      read wrote past the buffer. */
  function LoadShaderModuleAsWritten(reply: ShaderReply, before: ShaderModule): (r: LoadResult)
    ensures r.ok <==> reply.file.FileOfSize? && reply.create.result == VK_SUCCESS
    ensures r.out == if r.ok then Module(reply.create.handle) else before
    ensures reply.file.Unopenable? ==> r.calls == []
    ensures reply.file.FileOfSize? ==>
      r.calls == [Create(CreateShaderModule(reply.create.result, reply.create.handle, CodeSize(reply.file.bytes)))]
  {
    match reply.file
    case Unopenable => LoadResult(false, before, [])
    case FileOfSize(bytes) =>
      var call := Create(CreateShaderModule(reply.create.result, reply.create.handle, CodeSize(bytes)));
      if reply.create.result != VK_SUCCESS then LoadResult(false, before, [call])
      else LoadResult(true, Module(reply.create.handle), [call])
  }

  /** Whether the as-written loader's read overran its buffer. */
  predicate AsWrittenOverruns(reply: ShaderReply)
  {
    reply.file.FileOfSize? && !ReadInBounds(reply.file.bytes)
  }

  /** A 6-byte file: the as-written loader reads 6 bytes into a 4-byte buffer
      and still reports success, handing the driver a truncated 4-byte code. */
  lemma AsWrittenOverrunWitness(h: Handle)
    ensures AsWrittenOverruns(ShaderReply(FileOfSize(6), Created(VK_SUCCESS, h)))
    ensures LoadShaderModuleAsWritten(ShaderReply(FileOfSize(6), Created(VK_SUCCESS, h)), Uninitialized)
         == LoadResult(true, Module(h), [Create(CreateShaderModule(VK_SUCCESS, h, 4))])
  {
    assert CodeSize(6) == 4;
  }

  /** The loader with the size checks the buffer and the driver need: an
      empty file, or one whose size is not a whole number of words, is
      rejected, recoverably, before any read and without a driver call. */
  function LoadShaderModule(reply: ShaderReply, before: ShaderModule): (r: LoadResult)
    ensures r.ok <==> reply.file.FileOfSize? && 0 < reply.file.bytes && reply.file.bytes % WORD_BYTES == 0 &&
                      reply.create.result == VK_SUCCESS
    ensures r.out == if r.ok then Module(reply.create.handle) else before
    ensures r.calls != [] ==>
      reply.file.FileOfSize? && 0 < reply.file.bytes && ReadInBounds(reply.file.bytes) &&
      r.calls == [Create(CreateShaderModule(reply.create.result, reply.create.handle, reply.file.bytes))]
    ensures reply.file.FileOfSize? && 0 < reply.file.bytes && reply.file.bytes % WORD_BYTES == 0 ==>
      r == LoadShaderModuleAsWritten(reply, before)
  {
    match reply.file
    case Unopenable => LoadResult(false, before, [])
    case FileOfSize(bytes) =>
      if bytes == 0 || bytes % WORD_BYTES != 0 then LoadResult(false, before, [])
      else LoadShaderModuleAsWritten(reply, before)
  }

  /** The as-written loader hands an empty file to the driver with codeSize
      0, which Vulkan's valid usage of VkShaderModuleCreateInfo forbids, and
      reports success whenever the driver does. */
  lemma EmptyFileAsWritten(create: Created, before: ShaderModule)
    ensures ReadInBounds(0)
    ensures LoadShaderModuleAsWritten(ShaderReply(FileOfSize(0), create), before).calls
         == [Create(CreateShaderModule(create.result, create.handle, 0))]
    ensures LoadShaderModuleAsWritten(ShaderReply(FileOfSize(0), create), before).ok <==> create.result == VK_SUCCESS
  {
  }

  /** The corrected loader rejects an empty file without calling the driver
      and leaves the output variable as it was. */
  lemma EmptyFileRejected(create: Created, before: ShaderModule)
    ensures LoadShaderModule(ShaderReply(FileOfSize(0), create), before) == LoadResult(false, before, [])
  {
  }
}
