/** Optional values, results and the ways the object store and the tree
    code can fail. */
module Failures {

  datatype Option<+T> = None | Some(value: T)

  /** Every failure the modelled code raises, one constructor per site. */
  datatype Error =
    | NotFound(oid: string)                        // no object file for this OID (data.py:28)
    | TypeMismatch(expected: string, found: string) // the stored tag is not the expected type (data.py:36)
    | Undecodable                                  // bytes that do not decode to text
    | MalformedLine(line: string)                  // a tree line with fewer than two spaces (base.py:47)
    | SlashInName(name: string)                    // base.py:60
    | DotName(name: string)                        // base.py:61
    | UnknownType(kind: string)                    // base.py:71
    | TooDeep                                      // nesting beyond the recursion bound
    | IsADirectory(path: seq<string>)              // open for writing names a directory (base.py:83)
    | NotADirectory(path: seq<string>)             // makedirs below a non-directory (base.py:82)
    | FileExists(path: seq<string>)                // makedirs where a non-directory stands (base.py:82)

  datatype Result<+T> = Ok(value: T) | Err(error: Error)
}
