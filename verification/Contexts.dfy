/** The request context of context.cpp: its flags, the ownership of its post
    buffer, and what its completion leads to. */
module Contexts {
  import opened Options
  import opened Handles

  /** The fields the protocol depends on. A post buffer is known by its address,
      header list and response buffer by their length. */
  datatype Context = Context(
    plugin: nat, callback: int, handle: int, userdata: int,
    inEventThread: bool, handleClosed: bool,
    post: Option<nat>, curlcode: int, headers: nat, received: nat)

  ghost function Fresh(plugin: nat, handle: int, userdata: int): Context {
    Context(plugin, 0, handle, userdata, false, false, None, -1, 0, 0)
  }

  /** How the compression of a post buffer goes: no memory for the output, an
      error after the output buffer was allocated, or success, when also a
      header line is appended unless memory runs out for it. */
  datatype Compression = NoMemory | Failed(output: nat) | Deflated(output: nat, appended: bool)

  ghost function Started(c: Context, z: Compression): Context {
    if c.post.Some? && z.Deflated?
    then c.(inEventThread := true, post := Some(z.output), headers := c.headers + if z.appended then 1 else 0)
    else c.(inEventThread := true)
  }

  // The buffers that starting gives back.
  ghost function FreedByStart(c: Context, z: Compression): seq<nat> {
    if c.post.None? then [] else
      match z
      case NoMemory => []
      case Failed(b) => [b]
      case Deflated(_, _) => [c.post.value]
  }

  ghost function Completed(c: Context): Context {
    c.(post := None)
  }

  ghost function FreedByCompletion(c: Context): seq<nat> {
    if c.post.Some? then [c.post.value] else []
  }

  ghost function Returned(c: Context): Context {
    c.(inEventThread := false)
  }

  // The callback runs only for a function that was found and a handle that was
  // not closed meanwhile; otherwise the handle is freed.
  ghost predicate CallsBack(c: Context, found: bool) {
    found && !c.handleClosed
  }

  /** What the callback is given. */
  datatype Call = Call(handle: int, curlcode: int, httpresult: int, size: nat, userdata: int)

  // Status and size are those of the response, or zero for a failed transfer.
  ghost function Report(c: Context, response: int): Call {
    if c.curlcode == 0 then Call(c.handle, 0, response, c.received, c.userdata)
    else Call(c.handle, c.curlcode, 0, 0, c.userdata)
  }

  // The buffers that a compression allocates.
  ghost function Outputs(z: Compression): seq<nat> {
    match z
    case NoMemory => []
    case Failed(b) => [b]
    case Deflated(b, _) => [b]
  }

  // Starting keeps one of the buffers there are then, if any, and frees all
  // others; it touches nothing but that, the flag and the headers, which get one
  // more for data that was deflated, memory permitting.
  lemma StartOwns(c: Context, z: Compression)
    ensures var d := Started(c, z);
            && d.inEventThread && (d.post.None? <==> c.post.None?)
            && d == c.(inEventThread := true, post := d.post, headers := d.headers)
            && d.headers == c.headers + if c.post.Some? && z.Deflated? && z.appended then 1 else 0
    ensures c.post.None? ==> FreedByStart(c, z) == []
    ensures c.post.Some? ==>
              multiset([Started(c, z).post.value] + FreedByStart(c, z)) == multiset([c.post.value] + Outputs(z))
  {
  }

  // From a start to its completion every buffer is freed, once, and the context
  // is left as it was, but for the headers.
  lemma EveryBufferFreed(c: Context, z: Compression)
    requires !c.inEventThread
    ensures var d := Returned(Completed(Started(c, z))); d == c.(post := None, headers := d.headers)
    ensures multiset(FreedByStart(c, z) + FreedByCompletion(Started(c, z)))
         == multiset(if c.post.None? then [] else [c.post.value] + Outputs(z))
  {
    StartOwns(c, z);
    if c.post.Some? {
      var b := Started(c, z).post.value;
      assert multiset(FreedByStart(c, z) + [b]) == multiset([b] + FreedByStart(c, z));
    }
  }

  class CurlContext {
    const plugin: nat
    var callback: int
    var handle: int
    var userdata: int
    var inEventThread: bool
    var handleClosed: bool
    var post: Option<nat>
    var curlcode: int
    var headers: nat
    var received: nat
    // The post buffers freed so far.
    ghost var freed: seq<nat>

    ghost function Contents(): Context
      reads this
    {
      Context(plugin, callback, handle, userdata, inEventThread, handleClosed, post, curlcode, headers, received)
    }

    constructor (plugin: nat)
      ensures Contents() == Fresh(plugin, 0, 0) && freed == []
    {
      this.plugin := plugin;
      callback, handle, userdata := 0, 0, 0;
      inEventThread, handleClosed := false, false;
      post, curlcode, headers, received := None, -1, 0, 0;
      freed := [];
    }

    method OnCurlStarted(z: Compression)
      modifies this
      ensures Contents() == Started(old(Contents()), z)
      ensures freed == old(freed) + FreedByStart(old(Contents()), z)
      ensures inEventThread && (post.None? <==> old(post).None?)
      ensures headers == old(headers) + if old(post).Some? && z.Deflated? && z.appended then 1 else 0
      ensures old(post).Some? ==>
        || (post == old(post) && freed == old(freed) + Outputs(z))
        || ([post.value] == Outputs(z) && freed == old(freed) + [old(post).value])
    {
      inEventThread := true;
      if post.Some? {
        if !z.NoMemory? {
          if z.Deflated? {
            freed := freed + [post.value];
            post := Some(z.output);
            if z.appended {
              headers := headers + 1;
            }
          } else {
            freed := freed + [z.output];
          }
        }
      }
    }

    method OnCurlCompleted()
      modifies this
      ensures Contents() == Completed(old(Contents()))
      ensures freed == old(freed) + FreedByCompletion(old(Contents()))
    {
      if post.Some? {
        freed := freed + [post.value];
        post := None;
      }
    }

    method OnCurlCompletedGameThread(found: bool, responseCode: int, manager: HandleManager) returns (call: Option<Call>)
      requires manager.Valid()
      modifies this, manager
      ensures Contents() == Returned(old(Contents())) && freed == old(freed) && manager.Valid()
      ensures call.Some? <==> CallsBack(old(Contents()), found)
      ensures call.Some? <==> found && !old(handleClosed)
      ensures call.Some? ==>
        && manager.Contents() == old(manager.Contents()) && call.value == Report(Contents(), responseCode)
        && call.value.handle == handle && call.value.curlcode == curlcode && call.value.userdata == userdata
        && call.value.size == (if curlcode == 0 then received else 0)
        && call.value.httpresult == (if curlcode == 0 then responseCode else 0)
      ensures call.None? ==> manager.Contents() == Freed(old(manager.Contents()), handle)
    {
      inEventThread := false;
      if !found {
        manager.FreeHandle(handle);
        return None;
      }
      if handleClosed {
        manager.FreeHandle(handle);
        return None;
      }
      var httpresult, size := 0, 0;
      if curlcode == 0 {
        httpresult := responseCode;
        size := received;
      }
      return Some(Call(handle, curlcode, httpresult, size, userdata));
    }
  }
}
