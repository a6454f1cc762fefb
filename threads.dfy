/** The Threads publisher: a two-step publish that first creates a text
    container and then publishes it, retrying the second step once when the
    container is reported missing. The rendered text and the network are
    inputs; the waits are recorded in the trace, not slept. */
module ThreadsPublishing {
  import opened Wrappers
  import opened Text
  import opened Http
  import opened Posts

  const TextLimit: nat := 500

  datatype ThreadsPublisher = ThreadsPublisher(id: string, accessToken: string, userId: string, template: string)

  datatype ThreadsRequest =
    | CreateContainer(url: string, text: string, accessToken: string)
    | PublishContainer(url: string, creationId: string, accessToken: string)

  /** What the publisher does, in order: send a request, or wait some
      milliseconds. */
  datatype Action = Send(request: ThreadsRequest) | Wait(millis: nat)

  /** The `id` field of a reply body decoded as JSON, or the decoding error. */
  datatype ThreadsReply = SendError(msg: string) | Response(status: int, body: string, id: Result<Option<string>>)

  type Network = (nat, ThreadsRequest) -> ThreadsReply

  /** The container text: unchanged up to 500 bytes, else its longest
      prefix within 497 bytes (cut at a character boundary) followed by "...". */
  function ThreadText(rendered: string): (t: string)
    ensures Utf8Len(t) <= TextLimit
    ensures Utf8Len(rendered) <= TextLimit ==> t == rendered
    ensures Utf8Len(rendered) > TextLimit ==>
      exists k :: 0 <= k <= |rendered| && t == rendered[..k] + Ellipsis && Utf8Len(rendered[..k]) <= TextLimit - 3
        && (k < |rendered| ==> Utf8Len(rendered[..k + 1]) > TextLimit - 3)
  {
    ByteTruncate(rendered, TextLimit)
  }

  /** Whether a publish error says the container is not there (yet). */
  predicate ContainerMissing(body: string) {
    Contains(body, "does not exist") || Contains(body, "No se encuentra")
  }

  function Confirmation(prefix: string, id: Result<Option<string>>): Result<string> {
    match id
    case Err(msg) => Err(msg)
    case Ok(v) => Ok(prefix + v.GetOr("unknown"))
  }

  /** The second step: publish the container; a failure whose body says the
      container is missing waits 3 s and publishes once more. `k` counts the
      requests already sent. */
  function PublishStep(req: ThreadsRequest, net: Network, k: nat): (out: (Result<string>, seq<Action>))
  {
    match net(k, req)
    case SendError(msg) => (Err(msg), [Send(req)])
    case Response(status, body, id) =>
      if IsSuccess(status) then (Confirmation("Published to Threads: ", id), [Send(req)])
      else if ContainerMissing(body) then
        var retried := [Send(req), Wait(3000), Send(req)];
        match net(k + 1, req)
        case SendError(msg) => (Err(msg), retried)
        case Response(status2, body2, id2) =>
          if IsSuccess(status2) then (Confirmation("Published to Threads (retry): ", id2), retried)
          else (Err("Failed to publish to Threads after retry: " + StatusText(status2) + " - " + body2), retried)
      else (Err("Failed to publish to Threads: " + StatusText(status) + " - " + body), [Send(req)])
  }

  /** `publish`: render, truncate, create the container, wait 2 s, publish it. */
  function Publish(p: ThreadsPublisher, post: Post, rendered: Result<string>, net: Network)
    : (out: (Result<string>, seq<Action>))
  {
    match rendered
    case Err(msg) => (Err(msg), [])
    case Ok(text) =>
      var create := CreateContainer("https://graph.threads.net/v1.0/" + p.userId + "/threads",
                                    ThreadText(text), p.accessToken);
      match net(0, create)
      case SendError(msg) => (Err(msg), [Send(create)])
      case Response(status, body, id) =>
        if !IsSuccess(status) then
          (Err("Failed to create Threads container: " + StatusText(status) + " - " + body), [Send(create)])
        else if id.Err? then (Err(id.msg), [Send(create)])
        else if id.value.None? then (Err("No container ID in Threads response"), [Send(create)])
        else
          var publish := PublishContainer("https://graph.threads.net/v1.0/" + p.userId + "/threads_publish",
                                          id.value.value, p.accessToken);
          var (r, actions) := PublishStep(publish, net, 1);
          (r, [Send(create), Wait(2000)] + actions)
  }

  /** The publish step sends its request once, or, only after a failure
      whose body says the container is missing, waits 3 s and sends the same
      request once more. It succeeds exactly when the last reply is a 2xx
      whose body decodes, and then confirms the published id ("unknown" when
      the body has none); every other ending is an error. */
  lemma PublishStepShape(req: ThreadsRequest, net: Network, k: nat)
    ensures var (r, actions) := PublishStep(req, net, k);
      var last := net(k + |actions| / 2, req);
      var prefix := if |actions| == 1 then "Published to Threads: " else "Published to Threads (retry): ";
      && (actions == [Send(req)] || actions == [Send(req), Wait(3000), Send(req)])
      && (|actions| == 3 <==> net(k, req).Response? && !IsSuccess(net(k, req).status) && ContainerMissing(net(k, req).body))
      && (r.Ok? <==> last.Response? && IsSuccess(last.status) && last.id.Ok?)
      && (r.Ok? ==> r.value == prefix + last.id.value.GetOr("unknown"))
  {
  }

  /** The container is created first, with the truncated text; only a
      created container with an id is published, 2 s later; the publish is
      sent at most twice, the second time 3 s after a failure whose body says
      the container is missing, and always for the same container. A failed
      or id-less container creation is an error; the publish succeeds exactly
      when its last reply is a 2xx whose body decodes, and then confirms the
      published id ("unknown" when the body has none). */
  lemma PublishShape(p: ThreadsPublisher, post: Post, rendered: Result<string>, net: Network)
    ensures var (r, actions) := Publish(p, post, rendered, net);
      && (rendered.Err? ==> actions == [] && r == Err(rendered.msg))
      && (rendered.Ok? ==> actions != [] && actions[0].Send? && actions[0].request.CreateContainer?
                           && actions[0].request.text == ThreadText(rendered.value))
      && |actions| in {0, 1, 3, 5}
      && (|actions| >= 3 ==>
            var reply := net(0, actions[0].request);
            && reply.Response? && IsSuccess(reply.status) && reply.id.Ok? && reply.id.value.Some?
            && actions[1] == Wait(2000)
            && actions[2] == Send(PublishContainer("https://graph.threads.net/v1.0/" + p.userId + "/threads_publish",
                                                   reply.id.value.value, p.accessToken)))
      && (|actions| == 5 ==>
            var first := net(1, actions[2].request);
            && first.Response? && !IsSuccess(first.status) && ContainerMissing(first.body)
            && actions[3] == Wait(3000) && actions[4] == actions[2])
      && (rendered.Ok? && |actions| == 1 ==> r.Err?)
      && (|actions| >= 3 ==>
            var last := net((|actions| - 1) / 2, actions[2].request);
            var prefix := if |actions| == 3 then "Published to Threads: " else "Published to Threads (retry): ";
            && (r.Ok? <==> last.Response? && IsSuccess(last.status) && last.id.Ok?)
            && (r.Ok? ==> r.value == prefix + last.id.value.GetOr("unknown")))
  {
    var (r, actions) := Publish(p, post, rendered, net);
    if rendered.Ok? {
      var create := actions[0].request;
      var reply := net(0, create);
      if reply.Response? && IsSuccess(reply.status) && reply.id.Ok? && reply.id.value.Some? {
        var publish := PublishContainer("https://graph.threads.net/v1.0/" + p.userId + "/threads_publish",
                                        reply.id.value.value, p.accessToken);
        PublishStepShape(publish, net, 1);
      }
    }
  }
}
