/**
 * The zarr configuration: the shipped defaults table, the configuration object
 * that `reset` and `enable_gpu` update, and the two parsing helpers that live
 * beside it.
 */
module ZarrConfig {
  import opened Common
  import opened Values
  import DType

  // ---------------------------------------------------------------------------
  // Helpers

  /** `parse_indexing_order`: the input itself when it equals "C" or "F", otherwise ValueError. */
  function ParseIndexingOrder(v: Value): (r: Result<string>)
    ensures r.Ok? <==> v == Str("C") || v == Str("F")
    ensures r.Ok? ==> Str(r.value) == v
    ensures r.Err? ==> r.error == ValueError
  {
    if v == Str("C") || v == Str("F") then Ok(v.s) else Err(ValueError)
  }

  const VariableLengthString := "variable-length-string"
  const DefaultCategory := "default"

  /**
   * `categorize_data_type`: the key of the category-keyed tables of the
   * configuration a data type reads. The variable-length string wrapper stands
   * for the class the source tests against.
   */
  function CategorizeDataType(w: DType.Wrapper): (c: string)
    ensures c == VariableLengthString <==> w.VlenString?
    ensures c == DefaultCategory <==> !w.VlenString?
  {
    if w.VlenString? then VariableLengthString else DefaultCategory
  }

  // ---------------------------------------------------------------------------
  // The defaults table

  const CpuBuffer := "zarr.core.buffer.cpu.Buffer"
  const CpuNDBuffer := "zarr.core.buffer.cpu.NDBuffer"
  const GpuBuffer := "zarr.core.buffer.gpu.Buffer"
  const GpuNDBuffer := "zarr.core.buffer.gpu.NDBuffer"

  /** The configuration of zstd at level 0 without checksum. */
  function ZstdV2(): map<string, Value> {
    map["id" := Str("zstd"), "level" := Int(0), "checksum" := Value.Bool(false)]
  }

  function ZstdV3(): Value {
    Dict(map["name" := Str("zstd"), "configuration" := Dict(map["level" := Int(0), "checksum" := Value.Bool(false)])])
  }

  function ArrayDefaults(): map<string, Value> {
    map[
      "order" := Str("C"),
      "write_empty_chunks" := Value.Bool(false),
      "v2_default_compressor" := Dict(map[DefaultCategory := Dict(ZstdV2()), VariableLengthString := Dict(ZstdV2())]),
      "v2_default_filters" := Dict(map[DefaultCategory := Null,
                                       VariableLengthString := List([Dict(map["id" := Str("vlen-utf8")])])]),
      "v3_default_filters" := Dict(map[DefaultCategory := List([]), VariableLengthString := List([])]),
      "v3_default_serializer" := Dict(map[
        DefaultCategory := Dict(map["name" := Str("bytes"), "configuration" := Dict(map["endian" := Str("little")])]),
        VariableLengthString := Dict(map["name" := Str("vlen-utf8")])]),
      "v3_default_compressors" := Dict(map[DefaultCategory := List([ZstdV3()]), VariableLengthString := List([ZstdV3()])])
    ]
  }

  function CodecDefaults(): map<string, Value> {
    map[
      "blosc" := Str("zarr.codecs.blosc.BloscCodec"),
      "gzip" := Str("zarr.codecs.gzip.GzipCodec"),
      "zstd" := Str("zarr.codecs.zstd.ZstdCodec"),
      "bytes" := Str("zarr.codecs.bytes.BytesCodec"),
      "endian" := Str("zarr.codecs.bytes.BytesCodec"),
      "crc32c" := Str("zarr.codecs.crc32c_.Crc32cCodec"),
      "sharding_indexed" := Str("zarr.codecs.sharding.ShardingCodec"),
      "transpose" := Str("zarr.codecs.transpose.TransposeCodec"),
      "vlen-utf8" := Str("zarr.codecs.vlen_utf8.VLenUTF8Codec"),
      "vlen-bytes" := Str("zarr.codecs.vlen_utf8.VLenBytesCodec")
    ]
  }

  /** The defaults the module-level `config` object is created with. */
  function Defaults(): map<string, Value> {
    map[
      "default_zarr_format" := Int(3),
      "array" := Dict(ArrayDefaults()),
      "async" := Dict(map["concurrency" := Int(10), "timeout" := Null]),
      "threading" := Dict(map["max_workers" := Null]),
      "json_indent" := Int(2),
      "codec_pipeline" := Dict(map["path" := Str("zarr.core.codec_pipeline.BatchedCodecPipeline"), "batch_size" := Int(1)]),
      "codecs" := Dict(CodecDefaults()),
      "buffer" := Str(CpuBuffer),
      "ndbuffer" := Str(CpuNDBuffer)
    ]
  }

  /**
   * `get` of a dotted key, one segment at a time: a missing key is a KeyError
   * and indexing into a value that is not a mapping a TypeError.
   */
  function Lookup(m: map<string, Value>, path: seq<string>): (r: Result<Value>)
    requires |path| >= 1
    ensures |path| == 1 ==> r == (if path[0] in m then Ok(m[path[0]]) else Err(KeyError(path[0])))
    ensures path[0] !in m ==> r == Err(KeyError(path[0]))
    decreases |path|
  {
    if path[0] !in m then Err(KeyError(path[0]))
    else if |path| == 1 then Ok(m[path[0]])
    else match m[path[0]]
      case Dict(inner) => Lookup(inner, path[1..])
      case _ => Err(TypeError)
  }

  /** The shipped values the rest of the metadata layer relies on. */
  lemma ShippedDefaults()
    ensures Lookup(Defaults(), ["array", "v2_default_compressor", DefaultCategory]) == Ok(Dict(ZstdV2()))
    ensures Lookup(Defaults(), ["array", "v2_default_compressor", VariableLengthString]) == Ok(Dict(ZstdV2()))
    ensures Lookup(Defaults(), ["array", "v2_default_filters", DefaultCategory]) == Ok(Null)
    ensures Lookup(Defaults(), ["array", "v2_default_filters", VariableLengthString])
         == Ok(List([Dict(map["id" := Str("vlen-utf8")])]))
    ensures Lookup(Defaults(), ["json_indent"]) == Ok(Int(2))
    ensures Lookup(Defaults(), ["buffer"]) == Ok(Str(CpuBuffer))
    ensures Lookup(Defaults(), ["ndbuffer"]) == Ok(Str(CpuNDBuffer))
  { }

  // ---------------------------------------------------------------------------
  // The configuration object

  /** The settings after `enable_gpu`: the two buffer classes replaced, nothing else touched. */
  function WithGpu(settings: map<string, Value>): (r: map<string, Value>)
    ensures r.Keys == settings.Keys + {"buffer", "ndbuffer"}
    ensures r["buffer"] == Str(GpuBuffer) && r["ndbuffer"] == Str(GpuNDBuffer)
    ensures forall k :: k in settings && k != "buffer" && k != "ndbuffer" ==> r[k] == settings[k]
  {
    settings["buffer" := Str(GpuBuffer)]["ndbuffer" := Str(GpuNDBuffer)]
  }

  /**
   * The configuration object: the layers of defaults it was created with, and
   * the merged settings that `get` reads and `set` writes.
   */
  class Config {
    const defaults: map<string, Value>
    var settings: map<string, Value>

    /** Creating the object refreshes it, so it starts out at its defaults. */
    constructor (defaults: map<string, Value>)
      ensures this.defaults == defaults && settings == defaults
    {
      this.defaults := defaults;
      settings := defaults;
    }

    /** `get` of a dotted key, split into its segments. */
    function Get(path: seq<string>): Result<Value>
      requires |path| >= 1
      reads this
    {
      Lookup(settings, path)
    }

    /** `set` with a mapping of top-level keys: each given key is replaced. */
    method Set(updates: map<string, Value>)
      modifies this
      ensures settings == old(settings) + updates
    {
      settings := settings + updates;
    }

    /** `clear`: every setting is dropped. */
    method Clear()
      modifies this
      ensures settings == map[]
    {
      settings := map[];
    }

    /** `refresh`: cleared, then the defaults merged back in. */
    method Refresh()
      modifies this
      ensures settings == defaults
    {
      Clear();
      settings := settings + defaults;
      assert settings == defaults;
    }

    /** `reset`: `clear` then `refresh`, so the settings are the defaults again. */
    method Reset()
      modifies this
      ensures settings == defaults
    {
      Clear();
      Refresh();
    }

    /** `enable_gpu`: sets the buffer and ndbuffer classes to the GPU ones. */
    method EnableGpu()
      modifies this
      ensures settings == WithGpu(old(settings))
    {
      Set(map["buffer" := Str(GpuBuffer), "ndbuffer" := Str(GpuNDBuffer)]);
    }
  }

  /** `enable_gpu` leaves every lookup that does not start at a buffer key as it was. */
  lemma WithGpuKeepsOtherKeys(settings: map<string, Value>, path: seq<string>)
    requires |path| >= 1 && path[0] != "buffer" && path[0] != "ndbuffer"
    ensures Lookup(WithGpu(settings), path) == Lookup(settings, path)
  { }

  /**
   * On the shipped configuration, `enable_gpu` makes `buffer` the GPU class and
   * a later `reset` brings the CPU class back.
   */
  method GpuThenReset() returns (afterGpu: Result<Value>, afterReset: Result<Value>)
    ensures afterGpu == Ok(Str(GpuBuffer))
    ensures afterReset == Ok(Str(CpuBuffer))
  {
    var config := new Config(Defaults());
    config.EnableGpu();
    afterGpu := config.Get(["buffer"]);
    config.Reset();
    afterReset := config.Get(["buffer"]);
    ShippedDefaults();
  }
}
