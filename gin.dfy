/** The part of a gin request context the middleware and handlers use: the
    Authorization header, the key/value store written by `c.Set`, the abort
    flag and the JSON error reply written just before an abort. */
module Gin {
  import opened Common

  /** A context value: a string, or Go's nil (a missing JWT/Firebase claim). */
  datatype Value = Str(s: string) | Nil

  datatype Reply = Reply(status: int, error: string)

  /** A multipart file part as `c.FormFile` returns it: its file name, its
      declared Content-Type, its size in bytes, and whether `Open` succeeds. */
  datatype FileHeader = FileHeader(filename: string, contentType: string, size: int, opens: bool)

  class Context {
    /** The `Authorization` request header; "" when the header is absent. */
    const authorization: string
    var keys: map<string, Value>
    var aborted: bool
    var reply: Option<Reply>

    /** A fresh request: nothing set, nothing written. */
    constructor (authorization: string)
      ensures this.authorization == authorization
      ensures keys == map[] && !aborted && reply == None
    {
      this.authorization := authorization;
      keys := map[];
      aborted := false;
      reply := None;
    }

    /** `c.Set(key, value)`. */
    method Set(key: string, value: Value)
      modifies this`keys
      ensures keys == old(keys)[key := value]
    {
      keys := keys[key := value];
    }

    /** `c.JSON(status, gin.H{"error": error})` followed by `c.Abort()`, or
        `c.AbortWithStatusJSON(...)`: no later handler of the chain runs. */
    method AbortWithError(status: int, error: string)
      modifies this`aborted, this`reply
      ensures aborted && reply == Some(Reply(status, error))
    {
      reply := Some(Reply(status, error));
      aborted := true;
    }
  }
}
