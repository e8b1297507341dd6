/**
 * src/utils.rs: converting a path to the NUL-terminated string the engine's
 * C interface reads, and listing the column families of an unopened store.
 *
 * A path is modelled by its text as `to_string_lossy` renders it; the model
 * works on characters, and since UTF-8 encodes the NUL character as the single
 * byte 0 and uses that byte for nothing else, "the bytes contain a zero byte"
 * and "the text contains '\0'" are the same condition.
 */
module Utils {
  import opened Wrappers
  import opened Handles

  const NUL: char := '\0'

  /** The content of a C string: text with no NUL in it (the terminator is implicit). */
  type CString = s: string | NUL !in s

  const PathConversionError: string := "Failed to convert path to CString when opening DB."

  /** The bytes a C reader is handed: the content followed by the terminator. */
  function AsBytesWithNul(c: CString): (buf: string)
    ensures |buf| == |c| + 1 && buf[|c|] == NUL && buf[..|c|] == c
  {
    c + [NUL]
  }

  /** What a C reader takes a NUL-terminated buffer to mean: everything before the first NUL. */
  function ReadCString(buf: string): (s: string)
    ensures NUL !in s
    ensures |s| <= |buf| && s == buf[..|s|]
  {
    if buf == [] || buf[0] == NUL then [] else [buf[0]] + ReadCString(buf[1..])
  }

  /** `to_cpath`: a path converts exactly when it has no interior NUL. */
  function ToCPath(path: string): (r: Result<CString, Error>)
    ensures r.Success? <==> NUL !in path
    ensures r.Success? ==> r.value == path
    ensures r.Failure? ==> r.error == Error(PathConversionError)
  {
    if NUL in path then Failure(Error(PathConversionError)) else Success(path)
  }

  /**
   * Why the conversion must refuse a NUL: the engine reads the path back up
   * to the first NUL, and it gets back exactly the path given iff the
   * conversion succeeds. A path with a NUL would otherwise be silently
   * truncated to a different path.
   */
  lemma {:induction false} ToCPathRoundTrip(path: string)
    ensures ToCPath(path).Success? <==> ReadCString(path + [NUL]) == path
    ensures ToCPath(path).Success? ==> ReadCString(AsBytesWithNul(ToCPath(path).value)) == path
  {
    if path == [] {
    } else {
      assert (path + [NUL])[1..] == path[1..] + [NUL];
      ToCPathRoundTrip(path[1..]);
      if path[0] != NUL {
        assert NUL in path <==> NUL in path[1..] by {
          assert path == [path[0]] + path[1..];
        }
      }
    }
  }

  /**
   * `get_cf_names`: the path is converted first; only when that succeeds is
   * the engine asked for the family list, whose reply `listed` is passed
   * through unchanged (its decoding from C strings is not part of this model).
   */
  function GetCfNames(path: string, listed: Result<seq<string>, Error>): (r: Result<seq<string>, Error>)
    ensures NUL in path ==> r == Failure(Error(PathConversionError))
    ensures NUL !in path ==> r == listed
  {
    var cpath := ToCPath(path);
    if cpath.Failure? then Failure(cpath.error) else listed
  }
}
