/**
 * The four lifecycle handlers of src/broker/broker.py. The HTTP call to the backend
 * admin API is abstracted: each handler yields the request it sends and, given the
 * status code the backend answers with, the response it returns to the platform.
 */
module Lifecycle {
  import opened Wrappers
  import Secret

  datatype Verb = Post | Put | Delete

  /** JSON body sent to the credentials endpoint: {username} or {username, password}. */
  datatype CredentialsPayload = CredentialsPayload(username: string, password: Option<string>)

  datatype BackendRequest = BackendRequest(verb: Verb, url: string, payload: Option<CredentialsPayload>)

  datatype Credential = Credential(username: string, password: string, uri: string)

  /** Response bodies: "{}" or {"credentials": {...}}. */
  datatype Body = EmptyObject | CredentialsDocument(credentials: Credential)

  datatype Response = Response(status: int, body: Body)

  /** What one handler call does: the request it sends and the response it returns. */
  datatype Exchange = Exchange(sent: BackendRequest, reply: Response)

  const Ok := 200
  const Created := 201
  const InternalError := 500

  /** The generic failure response; it carries nothing from the backend. */
  const Failure := Response(InternalError, EmptyObject)

  /** The backend status test every handler applies. */
  predicate BackendRejected(status: int) {
    status > 299
  }

  /** Python's "{}".format of a configuration slot: None prints as "None". */
  function Str(v: Option<string>): string {
    match v
    case None => "None"
    case Some(s) => s
  }

  function AdminBucketUrl(dbUrl: Option<string>, instanceId: string): string {
    Str(dbUrl) + "/api/admin/bucket/" + instanceId
  }

  function AdminCredentialsUrl(dbUrl: Option<string>, instanceId: string): string {
    Str(dbUrl) + "/api/admin/bucket/" + instanceId + "/credentials"
  }

  /** The data-plane URI handed to the application; not an admin path. */
  function BucketUri(dbUrl: Option<string>, instanceId: string): string {
    Str(dbUrl) + "/api/bucket/" + instanceId
  }

  function ProvisionInstance(dbUrl: Option<string>, instanceId: string, backendStatus: int): (x: Exchange)
    ensures x.sent == BackendRequest(Post, AdminBucketUrl(dbUrl, instanceId), None)
    ensures x.reply == Failure <==> BackendRejected(backendStatus)
    ensures x.reply == Failure || x.reply == Response(Created, EmptyObject)
  {
    var sent := BackendRequest(Post, AdminBucketUrl(dbUrl, instanceId), None);
    if backendStatus > 299 then Exchange(sent, Failure)
    else Exchange(sent, Response(Created, EmptyObject))
  }

  /** The handler once the password has been generated. */
  function BindWithPassword(
    dbUrl: Option<string>, instanceId: string, bindingId: string, password: string, backendStatus: int): (x: Exchange)
    ensures x.sent == BackendRequest(Put, AdminCredentialsUrl(dbUrl, instanceId),
                                     Some(CredentialsPayload(bindingId, Some(password))))
    ensures x.reply == Failure <==> BackendRejected(backendStatus)
    ensures !BackendRejected(backendStatus) ==>
      x.reply.status == Created &&
      x.reply.body == CredentialsDocument(Credential(bindingId, x.sent.payload.value.password.value,
                                                     BucketUri(dbUrl, instanceId)))
  {
    var creds := CredentialsPayload(bindingId, Some(password));
    var sent := BackendRequest(Put, AdminCredentialsUrl(dbUrl, instanceId), Some(creds));
    if backendStatus > 299 then Exchange(sent, Failure)
    else
      Exchange(sent, Response(Created, CredentialsDocument(Credential(bindingId, password, BucketUri(dbUrl, instanceId)))))
  }

  /** broker_bind_instance: draw a fresh secret, then send it and shape the reply. */
  method BindInstance(dbUrl: Option<string>, instanceId: string, bindingId: string, backendStatus: int)
    returns (x: Exchange)
    ensures x.sent.verb == Put && x.sent.url == AdminCredentialsUrl(dbUrl, instanceId)
    ensures x.sent.payload.Some? && x.sent.payload.value.username == bindingId
    ensures x.sent.payload.value.password.Some?
    ensures var p := x.sent.payload.value.password.value;
      |p| == Secret.SecretLength && forall i :: 0 <= i < |p| ==> Secret.IsAlphanumeric(p[i])
    ensures x.reply == Failure <==> BackendRejected(backendStatus)
    ensures !BackendRejected(backendStatus) ==>
      x.reply == Response(Created, CredentialsDocument(Credential(bindingId, x.sent.payload.value.password.value,
                                                                  BucketUri(dbUrl, instanceId))))
  {
    var password := Secret.GenerateRandom();
    x := BindWithPassword(dbUrl, instanceId, bindingId, password, backendStatus);
  }

  function UnbindInstance(dbUrl: Option<string>, instanceId: string, bindingId: string, backendStatus: int): (x: Exchange)
    ensures x.sent == BackendRequest(Delete, AdminCredentialsUrl(dbUrl, instanceId),
                                     Some(CredentialsPayload(bindingId, None)))
    ensures x.reply == Failure <==> BackendRejected(backendStatus)
    ensures x.reply == Failure || x.reply == Response(Ok, EmptyObject)
  {
    var creds := CredentialsPayload(bindingId, None);
    var sent := BackendRequest(Delete, AdminCredentialsUrl(dbUrl, instanceId), Some(creds));
    if backendStatus > 299 then Exchange(sent, Failure)
    else Exchange(sent, Response(Ok, EmptyObject))
  }

  function DeprovisionInstance(dbUrl: Option<string>, instanceId: string, backendStatus: int): (x: Exchange)
    ensures x.sent == BackendRequest(Delete, AdminBucketUrl(dbUrl, instanceId), None)
    ensures x.reply == Failure <==> BackendRejected(backendStatus)
    ensures x.reply == Failure || x.reply == Response(Ok, EmptyObject)
  {
    var sent := BackendRequest(Delete, AdminBucketUrl(dbUrl, instanceId), None);
    if backendStatus > 299 then Exchange(sent, Failure)
    else Exchange(sent, Response(Ok, EmptyObject))
  }

  /**
   * Replies see the backend only through the 299/300 boundary: two statuses on the same
   * side give the same reply, and a failed bind is the same whatever password was sent.
   */
  lemma RepliesSeeOnlyRejection(
    dbUrl: Option<string>, instanceId: string, bindingId: string, p: string, q: string, s: int, t: int)
    requires BackendRejected(s) == BackendRejected(t)
    ensures ProvisionInstance(dbUrl, instanceId, s).reply == ProvisionInstance(dbUrl, instanceId, t).reply
    ensures DeprovisionInstance(dbUrl, instanceId, s).reply == DeprovisionInstance(dbUrl, instanceId, t).reply
    ensures UnbindInstance(dbUrl, instanceId, bindingId, s).reply == UnbindInstance(dbUrl, instanceId, bindingId, t).reply
    ensures BackendRejected(s) ==>
      BindWithPassword(dbUrl, instanceId, bindingId, p, s).reply == BindWithPassword(dbUrl, instanceId, bindingId, q, t).reply
    ensures !BackendRejected(s) ==>
      BindWithPassword(dbUrl, instanceId, bindingId, p, s).reply == BindWithPassword(dbUrl, instanceId, bindingId, p, t).reply
  {
  }

  /** The boundary itself: 299 is accepted and 300 rejected by every handler. */
  lemma StatusBoundary(dbUrl: Option<string>, instanceId: string, bindingId: string, p: string)
    ensures ProvisionInstance(dbUrl, instanceId, 299).reply == Response(Created, EmptyObject)
    ensures ProvisionInstance(dbUrl, instanceId, 300).reply == Failure
    ensures BindWithPassword(dbUrl, instanceId, bindingId, p, 299).reply.status == Created
    ensures BindWithPassword(dbUrl, instanceId, bindingId, p, 300).reply == Failure
    ensures UnbindInstance(dbUrl, instanceId, bindingId, 299).reply == Response(Ok, EmptyObject)
    ensures UnbindInstance(dbUrl, instanceId, bindingId, 300).reply == Failure
    ensures DeprovisionInstance(dbUrl, instanceId, 299).reply == Response(Ok, EmptyObject)
    ensures DeprovisionInstance(dbUrl, instanceId, 300).reply == Failure
  {
  }

  /**
   * Each removal targets what its creation made: deprovision deletes the bucket provision
   * posted, and unbind deletes the credentials of the same username bind put.
   */
  lemma RemovalUndoesCreation(
    dbUrl: Option<string>, instanceId: string, bindingId: string, p: string, s: int, t: int)
    ensures var create := ProvisionInstance(dbUrl, instanceId, s).sent;
            var remove := DeprovisionInstance(dbUrl, instanceId, t).sent;
            create.verb == Post && remove.verb == Delete && create.url == remove.url
    ensures var create := BindWithPassword(dbUrl, instanceId, bindingId, p, s).sent;
            var remove := UnbindInstance(dbUrl, instanceId, bindingId, t).sent;
            create.verb == Put && remove.verb == Delete && create.url == remove.url &&
            create.payload.value.username == remove.payload.value.username &&
            remove.payload.value.password.None?
  {
  }

  /** The credentials path is the bucket path extended by "/credentials". */
  lemma CredentialsUnderBucket(dbUrl: Option<string>, instanceId: string)
    ensures AdminCredentialsUrl(dbUrl, instanceId) == AdminBucketUrl(dbUrl, instanceId) + "/credentials"
  {
  }

  /** Distinct instances are sent to distinct backend buckets. */
  lemma AdminUrlsSeparateInstances(dbUrl: Option<string>, a: string, b: string)
    requires a != b
    ensures AdminBucketUrl(dbUrl, a) != AdminBucketUrl(dbUrl, b)
    ensures AdminCredentialsUrl(dbUrl, a) != AdminCredentialsUrl(dbUrl, b)
    ensures BucketUri(dbUrl, a) != BucketUri(dbUrl, b)
  {
    var n := |Str(dbUrl) + "/api/admin/bucket/"|;
    assert AdminBucketUrl(dbUrl, a)[n..] == a;
    assert AdminBucketUrl(dbUrl, b)[n..] == b;
    assert AdminCredentialsUrl(dbUrl, a)[n..n + |a|] == a;
    assert AdminCredentialsUrl(dbUrl, b)[n..n + |b|] == b;
    var m := |Str(dbUrl) + "/api/bucket/"|;
    assert BucketUri(dbUrl, a)[m..] == a;
    assert BucketUri(dbUrl, b)[m..] == b;
  }

  /** The URI given to the application is never one of the admin paths. */
  lemma BucketUriIsNotAdminPath(dbUrl: Option<string>, a: string, b: string)
    ensures BucketUri(dbUrl, a) != AdminBucketUrl(dbUrl, b)
    ensures BucketUri(dbUrl, a) != AdminCredentialsUrl(dbUrl, b)
  {
    var k := |Str(dbUrl)| + 5;
    assert BucketUri(dbUrl, a)[k] == 'b';
    assert AdminBucketUrl(dbUrl, b)[k] == 'a';
    assert AdminCredentialsUrl(dbUrl, b)[k] == 'a';
  }
}
