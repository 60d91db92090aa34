# Zarr format 2 array metadata, data-type wrappers and configuration

This project models the metadata layer of zarr-python for arrays stored in zarr format 2. It has three parts:

- **Data-type wrappers** (`dtype.py`). Each wrapper stands for one numpy scalar kind: bool, the eight integer widths, three float widths, two complex widths, fixed-length byte strings, raw bytes, fixed-length unicode strings and variable-length strings. A wrapper:
  - names itself (`to_dict`);
  - builds its numpy dtype (`to_dtype`, `from_dtype`);
  - converts single fill values to and from the JSON written in a metadata document (`to_json_value`, `from_json_value`).
- **The array metadata record** (`v2.py`):
  - the validating constructor and its field parsers (`parse_filters`, `parse_compressor`, `parse_fill_value`, `parse_zarr_format`, `parse_metadata`);
  - the conversions to and from the `.zarray` document (`to_dict`, `from_dict`);
  - chunk-key encoding, the chunk spec and the functional updates;
  - the lookup of default codecs in the configuration.
- **The configuration** (`config.py`):
  - the shipped defaults table;
  - `parse_indexing_order` and `categorize_data_type`;
  - the configuration object whose `reset` and `enable_gpu` change its settings.

Python values the layer handles are one datatype, `Values.Value`: None, bool, int, float, str, bytes, list/tuple, dict, or a codec object. Floats are abstract (`NaN`, `PosInf`, `NegInf`, `Finite(r)` with `r` real). A codec is known only by its configuration mapping.

Numpy scalars are `DType.Scalar`, and a numpy dtype is its kind character and item size (`DType.NDType`). Exceptions are `Common.Error` values inside a `Result`. An outcome that depends on numpy behaviour outside this model is `Err(Unmodelled)`.

The code follows the shape of the source:

- **Pure functions.** Conversions and parsers are Dafny functions.
- **Loops as methods.** The loops of `parse_filters` and `to_dict` and the edits of `from_dict` on its copy of the document are methods (`V2.ParseFilters`, `V2.ToDict`, `V2.FromDict`). Each is proved equal to a specification function (`V2.FiltersParsed`, `V2.Serialized`, `V2.Deserialized`).
- **The configuration object.** It is a class whose methods change its `settings` map.
- **Outside calls.** The registry's name for a wrapper (`get_name`) and its lookup of a numpy dtype (`get_data_type_from_numpy`) are function parameters.

One place where the written description and the code differ: `update_shape` and `update_attributes` go through `dataclasses.replace`, which runs `__init__` again. The model follows the code, so an update re-runs every parser and the shape/chunks length check (`V2Props.UpdateShapeSpec`).

## Model

| member | source | states |
|---|---|---|
| DType.EndiannessToNumpyStr | src/zarr/core/metadata/dtype.py:20-32 | "little", "big", "native" and None map to '<', '>', '=', '|' (each in both directions); any other name is a ValueError |
| DTypeProps.CheckJsonFloatV2Exactly | src/zarr/core/metadata/dtype.py:56-60 | the v2 float check holds exactly for "NaN", "Infinity", "-Infinity", ints, bools and floats |
| DTypeProps.CheckJsonComplexExactly | src/zarr/core/metadata/dtype.py:75-98 | both complex checks agree, and hold exactly for non-string sequences of two elements that each pass the float check |
| DTypeProps.CheckJsonIntAcceptsBool | src/zarr/core/metadata/dtype.py:49-53 | a JSON boolean passes `check_json_int`, and every integer wrapper decodes it as 0 or 1 |
| DType.FloatToJsonV2 | src/zarr/core/metadata/dtype.py:110-115 | the result always passes the v2 float check, and is a number exactly when the input is finite |
| DTypeProps.FloatToJsonSentinels | src/zarr/core/metadata/dtype.py:110-115 | NaN, +inf and -inf map to their sentinel strings and only they do; a finite value maps to itself |
| DTypeProps.FloatJsonRoundTrip | src/zarr/core/metadata/dtype.py:110-174 | for both formats, `float_from_json(float_to_json(x)) == x` for every abstract float, and the encoding passes the float check |
| DTypeProps.FloatV3IsV2 | src/zarr/core/metadata/dtype.py:118-121 | the v3 conversions equal the v2 ones in both directions |
| DType.ComplexToJsonV3 | src/zarr/core/metadata/dtype.py:139-140 | the v3 encoding of a complex number is a pair that passes the v3 complex check |
| DType.ComplexFromJson | src/zarr/core/metadata/dtype.py:177-199 | with format 3, a string part is a TypeError, a part beyond the float64 range an OverflowError, and otherwise the result is the complex number of the two parts as `float()` reads them; format 2 is outside the model |
| DType.ToDtype | src/zarr/core/metadata/dtype.py:226-228 | `to_dtype` succeeds exactly for a valid endianness and then gives the wrapper's numpy dtype; otherwise ValueError |
| DType.FromDtype | src/zarr/core/metadata/dtype.py:426-427 | a flexible wrapper's length is the item size divided by the bytes per unit (rounded down); other wrappers come back unchanged |
| DType.ToDict | src/zarr/core/metadata/dtype.py:215-216 | the description always has a string name; only byte and unicode strings carry a configuration; every wrapper except raw bytes is named by its class name |
| DType.DefaultValue | src/zarr/core/metadata/dtype.py:248-251 | the default value is a value of the wrapper's own type |
| DTypeProps.DefaultValueIsZero | src/zarr/core/metadata/dtype.py:248-537 | the default is False, zero for every number, empty bytes, an empty raw value, the empty string, and an object holding the empty string for variable-length strings |
| V2Props.DefaultValueIsNumpyZero | src/zarr/core/metadata/dtype.py:248-487 | for every wrapper but raw bytes and variable-length strings, the default is numpy's zero of its dtype, the value `np.zeros((), dt)[()]` that `parse_fill_value` uses |
| DTypeProps.DefaultValueRoundTrip | src/zarr/core/metadata/dtype.py:257-349 | the default of every boolean, integer, float and unicode wrapper encodes, and decodes back to itself |
| DType.StaticByteStringToJson | src/zarr/core/metadata/dtype.py:444-447 | bytes encode exactly when they are all ASCII, to a string of the same length; otherwise UnicodeDecodeError |
| DType.StaticRawBytesToJson | src/zarr/core/metadata/dtype.py:473-474 | as written, only the empty raw value encodes |
| DType.VlenStringToJson | src/zarr/core/metadata/dtype.py:549-550 | a string object encodes as itself |
| DType.ToJsonValue | src/zarr/core/metadata/dtype.py:231-236 | per wrapper: a bool, the int itself, an encoding that passes the float check, a v3 complex pair, or the unicode string |
| DType.BoolFromJson | src/zarr/core/metadata/dtype.py:260-265 | anything but a JSON boolean is a TypeError; a boolean decodes to itself |
| DType.IntFromJson | src/zarr/core/metadata/dtype.py:278-283 | a value failing `check_json_int` is a TypeError; an in-range int decodes to itself; an out-of-range one overflows |
| DType.FloatFromJsonValue | src/zarr/core/metadata/dtype.py:344-349 | whatever the format, a value failing the v2 float check is a TypeError; otherwise the result is `float_from_json` of the value, so an int is that number as a float, or an OverflowError beyond the float64 range |
| DTypeProps.FloatFromJsonInt | src/zarr/core/metadata/dtype.py:153-162 | a JSON int read for a float wrapper is that number as a float when its magnitude is below 2^1024 - 2^970, and an OverflowError otherwise |
| DType.ComplexFromJsonValue | src/zarr/core/metadata/dtype.py:385-392 | whatever the format, a value failing the v3 pair check is a TypeError |
| DType.StaticByteStringFromJson | src/zarr/core/metadata/dtype.py:449-455 | as written, decoding always fails, and anything but a boolean is a TypeError |
| DType.BytesOf | src/zarr/core/metadata/dtype.py:476-481 | `bytes(d)` copies bytes, and refuses strings, None, floats and codecs with TypeError |
| DType.BytesOfList | src/zarr/core/metadata/dtype.py:476-481 | `bytes` of a list gives one byte per element, each the element's integer value |
| DType.StaticRawBytesFromJson | src/zarr/core/metadata/dtype.py:476-481 | the raw value is `bytes(data)`, with that call's errors |
| DType.StaticUnicodeStringFromJson | src/zarr/core/metadata/dtype.py:496-501 | anything but a string is a TypeError; a string decodes to itself |
| DType.FromJsonValue | src/zarr/core/metadata/dtype.py:238-245 | a decoded value is of the wrapper's type, and each wrapper's guard failure is a TypeError |
| DTypeProps.JsonValueRoundTrip | src/zarr/core/metadata/dtype.py:257-349 | for bool, integer, float and unicode wrappers, any valid endianness and both formats, decoding the encoding of a value gives it back |
| DTypeProps.ComplexV3RoundTripFinite | src/zarr/core/metadata/dtype.py:380-392 | a complex value with finite parts survives the format 3 round trip |
| DTypeProps.FromDtypeToDtype | src/zarr/core/metadata/dtype.py:421-432 | `from_dtype(to_dtype(w)) == w` for every wrapper, lengths included |
| DTypeProps.FlexibleLength | src/zarr/core/metadata/dtype.py:426-427 | a unicode dtype has `itemsize // 4` characters; byte and raw-byte dtypes have one unit per byte |
| DTypeProps.RawBytesName | src/zarr/core/metadata/dtype.py:464-465 | the raw-bytes name is "r" followed by a decimal numeral that reads back as `8 * length` |
| DTypeProps.NameHead | src/zarr/core/metadata/dtype.py:464-465 | a name starts with 'r' exactly when the wrapper is raw bytes |
| DTypeProps.ToDictInjective | src/zarr/core/metadata/dtype.py:441-442 | distinct wrappers have distinct `to_dict` descriptions |
| DType.ResolveDType | src/zarr/core/metadata/dtype.py:558-566 | a wrapper passes through unchanged; a dict and a numpy dtype-like go to the registry's two lookups |
| ZarrConfig.ParseIndexingOrder | src/zarr/core/config.py:138-142 | succeeds exactly for "C" and "F", returning the input; otherwise ValueError |
| ZarrConfig.CategorizeDataType | src/zarr/core/config.py:145-156 | "variable-length-string" exactly for the variable-length string wrapper, "default" for every other |
| ZarrConfig.ShippedDefaults | src/zarr/core/config.py:82-135 | both v2 compressor categories are zstd at level 0 without checksum; v2 filters are None and `[{"id": "vlen-utf8"}]`; `json_indent` is 2; buffer and ndbuffer are the CPU classes |
| ZarrConfig.Config.constructor | src/zarr/core/config.py:82-84 | a new configuration's settings are its defaults |
| ZarrConfig.Config.Set | src/zarr/core/config.py:72-78 | `set` overrides exactly the given keys |
| ZarrConfig.Config.Clear | src/zarr/core/config.py:68-70 | `clear` drops every setting |
| ZarrConfig.Config.Refresh | src/zarr/core/config.py:68-70 | `refresh` leaves exactly the defaults |
| ZarrConfig.Config.Reset | src/zarr/core/config.py:68-70 | after `reset` the settings are the defaults again, whatever they were |
| ZarrConfig.WithGpu | src/zarr/core/config.py:72-78 | the GPU settings add `buffer` and `ndbuffer` with the GPU classes and keep every other key's value |
| ZarrConfig.Config.EnableGpu | src/zarr/core/config.py:72-78 | `enable_gpu` turns the settings into their GPU version |
| ZarrConfig.WithGpuKeepsOtherKeys | src/zarr/core/config.py:72-78 | after `enable_gpu`, every lookup that does not start at `buffer` or `ndbuffer` is unchanged |
| ZarrConfig.GpuThenReset | src/zarr/core/config.py:68-78 | on the shipped configuration, `buffer` reads as the GPU class after `enable_gpu` and as the CPU class after a later `reset` |
| V2.ParseShapelike | src/zarr/core/metadata/v2.py:74-75 | an int n ≥ 0 is the shape [n], and a negative one a ValueError; a parsed list keeps its length and entries; None, floats and codecs are TypeErrors |
| V2.ParseSeparator | src/zarr/core/metadata/v2.py:80 | the separator is "." or "/", returned as given; anything else is a ValueError |
| V2.ParseAttributes | src/zarr/core/metadata/v2.py:83 | None gives no attributes, a dict is kept, anything else fails |
| V2.ParseZarrFormat | src/zarr/core/metadata/v2.py:213-216 | accepts exactly the values equal to 2, else ValueError |
| V2.ParseCompressor | src/zarr/core/metadata/v2.py:248-257 | None gives no compressor; a codec passes; a dict becomes its codec; anything else is a ValueError |
| V2.ParseMetadata | src/zarr/core/metadata/v2.py:260-267 | succeeds, unchanged, exactly when shape and chunks have the same length; otherwise ValueError |
| V2.FilterAt | src/zarr/core/metadata/v2.py:229-235 | an element is accepted exactly when it is a codec or a dict |
| V2.ParsedPrefix | src/zarr/core/metadata/v2.py:228-235 | after n elements the loop holds n codecs, or has failed at an index below n |
| V2.ParsedPrefixErrorStays | src/zarr/core/metadata/v2.py:228-235 | once the loop has failed at an index, the later elements do not change the error |
| V2.ParsedPrefixFirstInvalid | src/zarr/core/metadata/v2.py:228-235 | an invalid first element fails the whole loop at index 0 |
| V2Props.FiltersParsedCodecs | src/zarr/core/metadata/v2.py:219-245 | a non-empty list of codecs or their dicts parses to those configurations, in order |
| V2.IterationItems | src/zarr/core/metadata/v2.py:227-228 | iterating a string, bytes or a dict's keys gives as many elements as its length, none of them a codec or dict |
| V2.ParseFilters | src/zarr/core/metadata/v2.py:219-245 | the appending loop returns exactly `FiltersParsed`: None → None; an empty iterable → None; a non-empty one → its codecs in order; an invalid element → TypeError at its index; a lone codec → one codec; anything else → TypeError |
| V2.StripTrailingNulls | src/zarr/core/metadata/v2.py:308 | the result is a prefix with no trailing NUL, and only NUL bytes were removed |
| V2.ZeroOf | src/zarr/core/metadata/v2.py:289-292 | the zero of a dtype fits the dtype |
| V2.CastValue | src/zarr/core/metadata/v2.py:303-312 | a numpy cast that succeeds fits the dtype; a failure is a ValueError (or outside the model); an int beyond the float64 range cast to a float or complex kind is a ValueError |
| V2.CastScalar | src/zarr/core/metadata/v2.py:308 | a scalar that already fits the dtype comes back unchanged, and a success always fits |
| V2.ParseFillValue | src/zarr/core/metadata/v2.py:270-314 | the result fits the dtype; None → None; any value with the object dtype passes; a value equal to 0 → the dtype's zero; the unicode kind demands a string, else ValueError |
| V2Props.ReparseFill | src/zarr/core/metadata/v2.py:270-314 | a stored fill value parses back to itself |
| V2.Init | src/zarr/core/metadata/v2.py:57-96 | a constructed record is valid, and each field (shape, chunks, dtype, compressor, order, dimension separator, filters, fill value, attributes) equals its parser's result; a dtype that is not a wrapper is a TypeError once the shapes parse |
| V2Props.LengthMismatchRejected | src/zarr/core/metadata/v2.py:260-267 | once every field parses, construction fails exactly when shape and chunks differ in length, with a ValueError |
| V2Props.ParseShapeValue | src/zarr/core/metadata/v2.py:74-75 | a shape written as a tuple parses back to itself |
| V2.Ndim | src/zarr/core/metadata/v2.py:99-101 | for a valid record, `ndim` is the rank of both shape and chunks |
| V2.Shards | src/zarr/core/metadata/v2.py:103-104 | `shards` is always None |
| V2.GetChunkSpec | src/zarr/core/metadata/v2.py:185-194 | the spec carries the chunk shape, dtype, fill value, configuration and prototype |
| V2Props.ChunkSpecIgnoresCoords | src/zarr/core/metadata/v2.py:185-194 | the chunk spec does not depend on the chunk coordinates |
| V2.Numerals | src/zarr/core/metadata/v2.py:197 | one decimal numeral per coordinate |
| V2.EncodeChunkKey | src/zarr/core/metadata/v2.py:196-198 | no coordinates give "0", and one coordinate gives its numeral |
| V2Props.ChunkKeyRoundTrip | src/zarr/core/metadata/v2.py:196-198 | n ≥ 1 coordinates give a key with exactly n−1 separators that splits and parses back to the coordinates |
| V2Props.ChunkKeyOfScalar | src/zarr/core/metadata/v2.py:196-198 | the empty tuple and (0,) both give the key "0" |
| V2Props.SplitJoin | src/zarr/core/metadata/v2.py:197 | splitting a join of separator-free parts at the separator gives the parts back |
| V2Props.JoinSeparatorCount | src/zarr/core/metadata/v2.py:197 | joining n ≥ 1 separator-free parts adds exactly n−1 separators |
| Decimal.NatToString | src/zarr/core/metadata/v2.py:197 | `str(n)` is non-empty, all digits, and without a leading zero unless it is "0" |
| Decimal.ParseNatToString | src/zarr/core/metadata/v2.py:197 | the numeral parses back to the number |
| Decimal.NatToStringInjective | src/zarr/core/metadata/v2.py:197 | distinct numbers have distinct numerals |
| V2Props.ReInit | src/zarr/core/metadata/v2.py:200-204 | re-running the constructor on a valid record's own fields gives the same record |
| V2Props.UpdateShapeSpec | src/zarr/core/metadata/v2.py:200-201 | a shape of the chunks' rank replaces the old one and nothing else changes; any other rank is a ValueError |
| V2Props.UpdateAttributesSpec | src/zarr/core/metadata/v2.py:203-204 | the attributes are replaced and nothing else changes |
| V2.CompressorConfig | src/zarr/core/metadata/v2.py:157-162 | no "id" is a KeyError; zstd with a falsy checksum loses the key, or fails with KeyError when the key is absent; every other configuration is kept |
| V2.FiltersJson | src/zarr/core/metadata/v2.py:164-172 | no filters stay None; filters become their configurations, same count and order |
| V2.FillJson | src/zarr/core/metadata/v2.py:174-179 | no fill value stays None; a fill value is written as the wrapper's format 2 JSON |
| V2.ToDict | src/zarr/core/metadata/v2.py:155-183 | the dictionary edits return exactly `Serialized`: the base dict with the compressor configuration, filter configurations, JSON fill value and registry name |
| V2.DecodeFill | src/zarr/core/metadata/v2.py:127-131 | the keys are kept and only `fill_value` may change; outside the S and V kinds, or with no fill value, nothing changes |
| V2.KeepExpected | src/zarr/core/metadata/v2.py:136-151 | exactly the dataclass field names survive, with their values |
| V2.InitFromKwargs | src/zarr/core/metadata/v2.py:57-68 | a missing required keyword (shape, chunks, fill_value, order) is a TypeError |
| V2.FromDict | src/zarr/core/metadata/v2.py:120-153 | the edits on the copied document give exactly `Deserialized`, both the result and whether the empty-filters warning was emitted |
| V2Props.DeserializeDocument | src/zarr/core/metadata/v2.py:120-153 | a document in the shape `to_dict` writes reads back with no warning, and every field reaches the constructor as written |
| V2Props.FillJsonReparse | src/zarr/core/metadata/v2.py:174-179 | for bool, integer, float, unicode and variable-length string dtypes, the written fill value parses back to itself |
| V2Props.DocumentRoundTrip | src/zarr/core/metadata/v2.py:155-183 | `from_dict(to_dict(m)) == m` with no warning for those dtypes; the compressor comes back as the configuration `to_dict` wrote |
| V2Props.ExtraKeysIgnored | src/zarr/core/metadata/v2.py:133-151 | adding a key outside the field names does not change the outcome or the warning |
| V2Props.EmptyFiltersBecomeNone | src/zarr/core/metadata/v2.py:141-149 | empty filters give the outcome of None filters, and warn exactly when `from_dict` gets that far |
| Base64.StandardB64Decode | src/zarr/core/metadata/v2.py:130 | an ASCII string is decoded; a non-ASCII string is a ValueError; anything but str or bytes is a TypeError |
| Base64.DecodeEncode | src/zarr/core/metadata/v2.py:130 | decoding the standard encoding of any bytes gives them back |
| Base64.EncodeTest | tests/test_dtype.py:253-254 | "dGVzdA==" and b"test" encode to each other |
| V2.TableEntry | src/zarr/core/metadata/v2.py:324-325 | a table that is a mapping gives its entry for the key, or None when the key is absent; a failed configuration lookup fails alike; a table that is not a mapping is an AttributeError |
| DTypeProps.StaticByteStringRoundTripFails | src/zarr/core/metadata/dtype.py:444-455 | b"test" is written as "test", and that string is refused with TypeError |
| DTypeProps.StaticByteStringFromJsonFixed | src/zarr/core/metadata/dtype.py:449-455 | with the string guard, a non-string is a TypeError |
| DTypeProps.StaticByteStringRoundTripFixed | src/zarr/core/metadata/dtype.py:444-455 | with the string guard, every ASCII byte string round-trips |
| DTypeProps.AsciiEncode | src/zarr/core/metadata/dtype.py:453 | `str.encode("ascii")` gives one byte per character, its code |
| DTypeProps.StaticRawBytesToJsonFails | src/zarr/core/metadata/dtype.py:473-474 | every non-empty raw value fails to encode in both formats |
| DTypeProps.BytesOfListInts | src/zarr/core/metadata/dtype.py:480 | `bytes` of a list of byte values gives those bytes |
| DTypeProps.StaticRawBytesRoundTripFixed | src/zarr/core/metadata/dtype.py:473-481 | with the intended encoding, every raw value reads back |
| DTypeProps.ComplexV2RoundTripFails | src/zarr/core/metadata/dtype.py:135-136 | with format 2, 1+2j is written as 1.0, which the complex decoder refuses |
| DTypeProps.ComplexV3RoundTripFails | src/zarr/core/metadata/dtype.py:181-182 | with format 3, a NaN real part is written as "NaN", which `complex()` refuses |
| DTypeProps.ComplexToJsonFixed | src/zarr/core/metadata/dtype.py:135-140 | the intended encoding passes both complex checks |
| DTypeProps.ComplexFromJsonFixed | src/zarr/core/metadata/dtype.py:177-199 | the intended decoding refuses with TypeError whatever fails the pair check |
| DTypeProps.ComplexRoundTripFixed | src/zarr/core/metadata/dtype.py:135-199 | with the intended conversions every complex value round-trips, NaN and infinite parts included |
| V2Props.ByteStringFillRoundTripFails | src/zarr/core/metadata/v2.py:127-131 | a byte-string fill b"test" is written as "test" and read back as the bytes b5 eb 2d |
| V2Props.FillJsonFixed | src/zarr/core/metadata/v2.py:174-179 | byte-string and void fill values are written as base64 text; other dtypes as before |
| V2Props.BytesFillReparse | src/zarr/core/metadata/v2.py:127-131 | written as base64, a byte-string or void fill value decodes and parses back to itself |
| V2Props.DocumentRoundTripFixed | src/zarr/core/metadata/v2.py:120-183 | with base64 fill values, `from_dict(to_dict(m)) == m` for every non-complex dtype |
| V2Props.DefaultCodecsNeverFound | src/zarr/core/metadata/v2.py:317-333 | under the shipped defaults, every wrapper gets no default compressor and no default filters |
| V2Props.DefaultCodecsFixed | src/zarr/core/metadata/v2.py:317-333 | keyed by category, every wrapper gets zstd, and only variable-length strings get the vlen-utf8 filter |
| V2Props.ZstdWithoutChecksumFails | src/zarr/core/metadata/v2.py:160-161 | a zstd configuration without a checksum key makes `to_dict` fail with KeyError("checksum") |
| V2Props.CompressorConfigFixed | src/zarr/core/metadata/v2.py:160-161 | the corrected hotfix succeeds exactly when "id" is present, only removes keys, and leaves no falsy zstd checksum |
| V2Props.CompressorConfigFixedAgrees | src/zarr/core/metadata/v2.py:160-161 | the corrected hotfix agrees with the written one wherever that succeeds, and keeps the configuration where it fails on the `pop` |

## Left out

- numpy itself is not modelled: its dtype objects, IEEE precision (float16/float32 rounding) and complex arithmetic. A dtype is a kind and an item size, and floats are abstract.
- DType.PyFloat: an int within the float64 range becomes that exact number, not its nearest float64, and a value too large for float16 or float32 is kept rather than overflowing to infinity; only the OverflowError beyond the float64 range is modelled (also in `V2.CastValue`, where `parse_fill_value` reports it as a ValueError).
- V2.CastValue: the casts it describes are bool, int and float to bool; bool and int to an integer kind, with a ValueError out of range; bool, int, float and the strings "NaN", "Infinity" and "-Infinity" to float; bool, int and float to complex; and bytes or an ASCII string to the S kind. Every other cast gives `Err(Unmodelled)` rather than numpy's result: a float or a string to an integer kind, a string, bytes or a list to bool, any other string to float or complex, a number to the S kind, a non-bytes value to the V kind, and any value for an integer item size numpy does not have.
- V2.ParseFillValue: numpy casts across families give `Err(Unmodelled)`, as in `V2.CastValue`.
- DType.ComplexFromJson: with zarr format 2, numpy receives the list itself and builds an array. That is `Err(Unmodelled)`.
- DType.VlenStringToJson: `str()` of a non-string object is `Err(Unmodelled)`.
- DType.IntFromJson: an out-of-range integer is an OverflowError, as in numpy 2. The wrap-around with a deprecation warning in older numpy is not modelled.
- V2.FillJson: a stored fill value that is not of the wrapper's own type is `Err(Unmodelled)`.
- The data-type registry is not part of this model: `register_data_type`, `get_data_type_from_numpy`, `get_data_type_from_dict` and `get_name`. It appears only as function parameters of `ToDict`, `FromDict` and `ResolveDType`.
- numcodecs is not part of this model. A codec is its configuration, `get_codec(d)` is the identity, and an unknown codec id is never an error.
- `to_buffer_dict` is not modelled: JSON text rendering and byte buffers.
- `ArraySpec` and `ArrayConfig` are records carried as given.
- Donfig internals are not modelled:
  - environment variables and YAML files;
  - key canonicalisation (`-`/`_`);
  - thread safety;
  - the `ConfigSet` context manager that `enable_gpu` returns.
- ZarrConfig.Config.Set: `set` replaces whole top-level keys; Donfig's merge of nested keys is not modelled.
- V2.ParseShapelike, V2.ParseSeparator, V2.ParseAttributes: these stand for helpers whose source is not part of this model. They carry their evident contracts, and a string, bytes or dict shape is `Err(Unmodelled)`.
- Only the object-dtype branch of the numpy-version-dependent `VlenString` is modelled (`NDType('O', 8)`). The same wrapper stands for the variable-length string class that `categorize_data_type` tests against.
- `from_dict` takes the document by value, so it cannot change the caller's dictionary. Aliasing is not modelled.
- The warning is a boolean in `V2.FromDictOutcome`; its message text is not modelled.
- The `__init_subclass__` hook and the import-time registration loop of `dtype.py` are not modelled.
- Two quirks are modelled as written, with no corrected version, since they follow from Python's and the module's own typing: `check_json_int` accepts booleans (`DTypeProps.CheckJsonIntAcceptsBool`), and complex `from_json_value` uses the format 3 pair check for both formats (`DType.ComplexFromJsonValue`).

## Findings

Each finding has two members. The as-written one models the code and exhibits the failure. The corrected one is a definition beside it, with the intended property proved. The model of the source itself (`V2.ToDict`, `DType.FromJsonValue`, …) keeps the written behaviour.

| source | as written | input that shows it | evidently intended | confidence | as-written member | corrected member |
|---|---|---|---|---|---|---|
| src/zarr/core/metadata/dtype.py:449-455 | `StaticByteString.from_json_value` is guarded by `check_json_bool` and then calls `.encode("ascii")` on a bool | "test" for a length-4 byte string: TypeError, although `to_json_value` wrote it | guard with `check_json_str` | not executed; high | DTypeProps.StaticByteStringRoundTripFails | DTypeProps.StaticByteStringRoundTripFixed |
| src/zarr/core/metadata/dtype.py:473-474 | `tuple(*data.tobytes())` passes each byte as its own argument | any non-empty raw value, e.g. b"\x01": TypeError | `tuple(data.tobytes())` | not executed; high | DTypeProps.StaticRawBytesToJsonFails | DTypeProps.StaticRawBytesRoundTripFixed |
| src/zarr/core/metadata/dtype.py:135-136 | `complex_to_json_v2` passes the complex number to the float encoder, keeping only the real part | 1+2j with format 2 is written as 1.0, which the complex decoder refuses | write the pair of encoded parts | not executed; medium | DTypeProps.ComplexV2RoundTripFails | DTypeProps.ComplexRoundTripFixed |
| src/zarr/core/metadata/dtype.py:181-182 | `complex(*data)` receives the sentinel strings unconverted | ["NaN", 0.0] with format 3: TypeError | decode each part with `float_from_json` first | not executed; high | DTypeProps.ComplexV3RoundTripFails | DTypeProps.ComplexRoundTripFixed |
| src/zarr/core/metadata/v2.py:174-179 | `to_dict` writes a byte-string fill value as ASCII text, while `from_dict` (127-131) reads it as base64 | fill b"test" with dtype S4 is written as "test" and read back as b"\xb5\xeb\x2d" | write S and V fill values as base64 | not executed; high | V2Props.ByteStringFillRoundTripFails | V2Props.DocumentRoundTripFixed |
| src/zarr/core/metadata/v2.py:324-325 | the default tables are keyed by category but looked up by `dtype.kind` ("numeric", "string", …); the same holds at 332-333 | any wrapper under the shipped defaults: no compressor and no filters | look up `categorize_data_type(dtype)` | not executed; high | V2Props.DefaultCodecsNeverFound | V2Props.DefaultCodecsFixed |
| src/zarr/core/metadata/v2.py:160-161 | `pop("checksum")` has no default, although the test just before allows the key to be absent | compressor configuration {"id": "zstd", "level": 0}: KeyError("checksum") | `pop("checksum", None)` | not executed; medium | V2Props.ZstdWithoutChecksumFails | V2Props.CompressorConfigFixedAgrees |
