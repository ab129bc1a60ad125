/** The client-side stream handle `Stream<T>`: a handle is unopened until a
    client opens it as a reader or as a writer; readers pull chunks with
    `Next`, writers `Push` chunks and stop the stream with `Abort` or
    `Finish`, each of which asks the server to stop the stream at most once. */
module ClientStream {
  import opened Common

  type ObjectID = nat

  /** The part of an object's metadata that `Construct` reads. */
  datatype ObjectMeta = ObjectMeta(typeName: string, id: ObjectID)

  const ExpectReadonly: string := "Expect a readonly stream"
  const ExpectWriteable: string := "Expect a writeable stream"
  const CannotOpen: string := "Cannot open a stream multiple times or with null client"

  /** A stream handle. `client` is `client_` (`None` is the null pointer); the
      client itself is only an identity here. The remaining fields are
      the server's side of the stream as this handle observes it: the chunks a
      reader has not pulled yet and the status the server gives once they are
      used up, the chunks the server accepted from this writer, and the
      `StopStream` requests this handle issued (each records its `failed`
      argument). */
  class Stream<T> {
    const typeName: string
    var meta: ObjectMeta
    var id: ObjectID
    var client: Option<nat>
    var readonly: bool
    var stopped: bool

    var unread: seq<T>
    var endStatus: Status
    var pushed: seq<T>
    var stopRequests: seq<bool>

    /** A stream whose chunks run out ends with a status that is not OK. */
    ghost predicate Valid()
      reads this
    {
      !endStatus.OK?
    }

    predicate IsReader()
      reads this
    {
      client.Some? && readonly
    }

    predicate IsWriter()
      reads this
    {
      client.Some? && !readonly
    }

    /** `Create()`: a value-initialised handle (no client, not read-only, not
        stopped) over a stream that will deliver `unread` and then `endStatus`. */
    constructor (typeName: string, unread: seq<T>, endStatus: Status)
      requires !endStatus.OK?
      ensures Valid()
      ensures this.typeName == typeName && client == None && !readonly && !stopped
      ensures this.unread == unread && this.endStatus == endStatus
      ensures pushed == [] && stopRequests == []
    {
      this.typeName := typeName;
      this.unread := unread;
      this.endStatus := endStatus;
      meta := ObjectMeta(typeName, 0);
      id := 0;
      client := None;
      readonly := false;
      stopped := false;
      pushed := [];
      stopRequests := [];
    }

    /** `Construct`: adopts the metadata and its id when the type names agree;
        otherwise the assertion fails and nothing changes. */
    method Construct(m: ObjectMeta) returns (ok: bool)
      modifies this
      ensures ok <==> m.typeName == typeName
      ensures ok ==> meta == m && id == m.id
      ensures ok ==> client == old(client) && readonly == old(readonly) && stopped == old(stopped)
      ensures ok ==> unread == old(unread) && endStatus == old(endStatus)
      ensures ok ==> pushed == old(pushed) && stopRequests == old(stopRequests)
      ensures !ok ==> unchanged(this)
    {
      if m.typeName != typeName {
        return false;
      }
      meta := m;
      id := m.id;
      ok := true;
    }

    /** `OpenReader`: an opened handle answers `StreamOpened` and keeps its
        state; a null client fails the assertion; otherwise the client is
        recorded and, when the server opens the stream (`openStatus`), the
        handle becomes read-only. As in the source, a failed server open
        leaves the client recorded. */
    method OpenReader(c: Option<nat>, openStatus: Status) returns (st: Status)
      requires Valid()
      modifies this
      ensures Valid()
      ensures old(client).Some? ==> st == StreamOpened && unchanged(this)
      ensures old(client).None? && c.None? ==> st == AssertionFailed(CannotOpen) && unchanged(this)
      ensures old(client).None? && c.Some? ==> st == openStatus && client == c
      ensures old(client).None? && c.Some? ==> readonly == (openStatus.OK? || old(readonly))
      ensures old(client).None? && c.Some? ==> stopped == old(stopped) && meta == old(meta) && id == old(id)
      ensures unread == old(unread) && endStatus == old(endStatus)
      ensures pushed == old(pushed) && stopRequests == old(stopRequests)
    {
      if client.Some? {
        return StreamOpened;
      }
      if c.None? {
        return AssertionFailed(CannotOpen);
      }
      client := c;
      if !openStatus.OK? {
        return openStatus;
      }
      readonly := true;
      st := OK;
    }

    /** `OpenWriter`: as `OpenReader`, but a successful open leaves the handle
        writable. */
    method OpenWriter(c: Option<nat>, openStatus: Status) returns (st: Status)
      requires Valid()
      modifies this
      ensures Valid()
      ensures old(client).Some? ==> st == StreamOpened && unchanged(this)
      ensures old(client).None? && c.None? ==> st == AssertionFailed(CannotOpen) && unchanged(this)
      ensures old(client).None? && c.Some? ==> st == openStatus && client == c
      ensures old(client).None? && c.Some? ==> readonly == (if openStatus.OK? then false else old(readonly))
      ensures old(client).None? && c.Some? ==> stopped == old(stopped) && meta == old(meta) && id == old(id)
      ensures unread == old(unread) && endStatus == old(endStatus)
      ensures pushed == old(pushed) && stopRequests == old(stopRequests)
    {
      if client.Some? {
        return StreamOpened;
      }
      if c.None? {
        return AssertionFailed(CannotOpen);
      }
      client := c;
      if !openStatus.OK? {
        return openStatus;
      }
      readonly := false;
      st := OK;
    }

    /** `Next`: only a read-only handle pulls; it receives the next unread
        chunk, or the stream's end status and no chunk. */
    method Next() returns (st: Status, chunk: Option<T>)
      requires Valid()
      modifies this
      ensures Valid()
      ensures !old(IsReader()) ==> st == AssertionFailed(ExpectReadonly) && chunk == None && unchanged(this)
      ensures old(IsReader()) && old(unread) != [] ==>
        st == OK && chunk == Some(old(unread)[0]) && unread == old(unread)[1..]
      ensures old(IsReader()) && old(unread) == [] ==>
        st == old(endStatus) && chunk == None && unread == []
      ensures st.OK? <==> chunk.Some?
      ensures client == old(client) && readonly == old(readonly) && stopped == old(stopped)
      ensures meta == old(meta) && id == old(id) && endStatus == old(endStatus)
      ensures pushed == old(pushed) && stopRequests == old(stopRequests)
    {
      if !(client.Some? && readonly) {
        return AssertionFailed(ExpectReadonly), None;
      }
      if unread != [] {
        chunk := Some(unread[0]);
        unread := unread[1..];
        st := OK;
      } else {
        st, chunk := endStatus, None;
      }
    }

    /** `Push` (all four overloads): only a writable handle pushes; the server's
        answer is `pushStatus` and an accepted chunk is appended. */
    method Push(chunk: T, pushStatus: Status) returns (st: Status)
      requires Valid()
      modifies this
      ensures Valid()
      ensures !old(IsWriter()) ==> st == AssertionFailed(ExpectWriteable) && unchanged(this)
      ensures old(IsWriter()) ==> st == pushStatus
      ensures old(IsWriter()) ==> pushed == old(pushed) + (if pushStatus.OK? then [chunk] else [])
      ensures client == old(client) && readonly == old(readonly) && stopped == old(stopped)
      ensures meta == old(meta) && id == old(id)
      ensures unread == old(unread) && endStatus == old(endStatus) && stopRequests == old(stopRequests)
    {
      if !(client.Some? && !readonly) {
        return AssertionFailed(ExpectWriteable);
      }
      st := pushStatus;
      if pushStatus.OK? {
        pushed := pushed + [chunk];
      }
    }

    /** `Abort`: a writable handle that is not yet stopped marks itself stopped
        and issues one `StopStream(failed = true)`; once stopped, it answers OK
        and issues nothing. */
    method Abort(stopStatus: Status) returns (st: Status)
      requires Valid()
      modifies this
      ensures Valid()
      ensures !old(IsWriter()) ==> st == AssertionFailed(ExpectWriteable) && unchanged(this)
      ensures old(IsWriter()) && old(stopped) ==> st == OK && unchanged(this)
      ensures old(IsWriter()) && !old(stopped) ==>
        st == stopStatus && stopped && stopRequests == old(stopRequests) + [true]
      ensures client == old(client) && readonly == old(readonly) && meta == old(meta) && id == old(id)
      ensures unread == old(unread) && endStatus == old(endStatus) && pushed == old(pushed)
    {
      if !(client.Some? && !readonly) {
        return AssertionFailed(ExpectWriteable);
      }
      if stopped {
        return OK;
      }
      stopped := true;
      stopRequests := stopRequests + [true];
      st := stopStatus;
    }

    /** `Finish`: as `Abort`, with `StopStream(failed = false)`. */
    method Finish(stopStatus: Status) returns (st: Status)
      requires Valid()
      modifies this
      ensures Valid()
      ensures !old(IsWriter()) ==> st == AssertionFailed(ExpectWriteable) && unchanged(this)
      ensures old(IsWriter()) && old(stopped) ==> st == OK && unchanged(this)
      ensures old(IsWriter()) && !old(stopped) ==>
        st == stopStatus && stopped && stopRequests == old(stopRequests) + [false]
      ensures client == old(client) && readonly == old(readonly) && meta == old(meta) && id == old(id)
      ensures unread == old(unread) && endStatus == old(endStatus) && pushed == old(pushed)
    {
      if !(client.Some? && !readonly) {
        return AssertionFailed(ExpectWriteable);
      }
      if stopped {
        return OK;
      }
      stopped := true;
      stopRequests := stopRequests + [false];
      st := stopStatus;
    }
  }
}
