/** The library calls the store makes and does not implement: Node's `path`
    functions, `JSON.stringify`, and the `FILE_EXT` constant of the
    `./pref-constants` module (which is not part of this model). They are taken
    as parameters, with no property assumed of them. */
module NodeHost {
  import opened Documents

  datatype Host = Host(
    join: (string, string) -> string,
    normalize: string -> string,
    dirname: string -> string,
    extname: string -> string,
    basename: string -> string,
    stringify: Doc -> string,
    defaultFileExt: string)
}
