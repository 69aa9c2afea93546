/** Reader dispatch of src/claws/conf_readers.py: the extension table
    `_CONF_READER_MAP` and `conf_reader_factory`. A reader is named by a tag;
    what the readers do with a file is not part of this model. */
module ConfReaders {
  import opened Exceptions

  /** `read_env`, `read_json` and `read_toml`. */
  datatype Reader = ReadEnv | ReadJson | ReadToml

  /** `_CONF_READER_MAP`: extension, leading dot included, to reader. */
  const ConfReaderMap: map<string, Reader> := map[".env" := ReadEnv, ".json" := ReadJson, ".toml" := ReadToml]

  /** The extension a reader is registered under. */
  function Extension(r: Reader): string {
    match r
    case ReadEnv => ".env"
    case ReadJson => ".json"
    case ReadToml => ".toml"
  }

  /** `conf_reader_factory(file_ext)`: selects a reader by exact lookup, or
      raises `UnsupportedFileTypeError` naming the extension. It only
      selects; the result is a reader, not anything read. */
  function ConfReaderFactory(fileExt: string): (r: Result<Reader>)
    ensures r.Ok? <==> fileExt in {".env", ".json", ".toml"}
    ensures r.Ok? ==> Extension(r.value) == fileExt
    ensures r.Err? ==> r.error == Error(UnsupportedFileTypeError, "Unsupported config file type: " + fileExt)
  {
    if fileExt in ConfReaderMap then Ok(ConfReaderMap[fileExt])
    else Err(Error(UnsupportedFileTypeError, "Unsupported config file type: " + fileExt))
  }

  /** Each reader is found under its own extension, and only there. */
  lemma FactoryFindsEachReader(r: Reader, fileExt: string)
    ensures ConfReaderFactory(Extension(r)) == Ok(r)
    ensures ConfReaderFactory(fileExt) == Ok(r) ==> fileExt == Extension(r)
  {
  }

  /** The three supported extensions and their readers. */
  lemma FactoryTable()
    ensures ConfReaderFactory(".env") == Ok(ReadEnv)
    ensures ConfReaderFactory(".json") == Ok(ReadJson)
    ensures ConfReaderFactory(".toml") == Ok(ReadToml)
  {
  }

  /** The lookup is exact: no dot stripping, no case folding. */
  lemma LookupIsExact()
    ensures ConfReaderFactory("env") == Err(Error(UnsupportedFileTypeError, "Unsupported config file type: env"))
    ensures ConfReaderFactory(".ENV").Err?
    ensures ConfReaderFactory(".Json").Err?
    ensures ConfReaderFactory(".yaml").Err?
    ensures ConfReaderFactory("").Err?
  {
  }
}
