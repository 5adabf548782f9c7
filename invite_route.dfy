/** The admin invite route (server/api/admin/auth/invite/route.ts): asks the
    auth provider for an invite link for the posted email. */
module InviteRoute {
  import opened Common
  import opened AdminLinks

  const EmailRequired := "Email requerido"
  const Unexpected := "Error inesperado"

  /** `{ ok: false, error }` or `{ ok: true, userId }` (`None` for null; an
      error without a message leaves the field out). */
  datatype Body = Refused(error: Option<string>) | Invited(userId: Option<string>)

  datatype Response = Response(status: int, body: Body, steps: seq<Step>)

  /** `POST`. `request` is what `req.json()` does, `client` what creating
      the admin client does, `generateLink` what the provider does with a
      link request; each may throw. */
  function Post(request: Call<AdminRequest>, client: Call<()>, generateLink: LinkRequest -> Call<LinkReply>): (r: Response)
    ensures r.status == 200 <==> r.body.Invited?
    ensures r.status == 200 || r.status == 400 || r.status == 500
    ensures r.steps == [] <==> request.Threw? || !Truthy(request.value.email)
  {
    match request
    case Threw(m) => Response(500, Refused(Some(m.GetOr(Unexpected))), [])
    case Returned(req) =>
      if !Truthy(req.email) then Response(400, Refused(Some(EmailRequired)), [])
      else
        var steps := LinkSteps(Invite, req, client);
        match client
        case Threw(m) => Response(500, Refused(Some(m.GetOr(Unexpected))), steps)
        case Returned(_) =>
          match generateLink(LinkRequest(Invite, req.email.value, req.redirectTo))
          case Threw(m) => Response(500, Refused(Some(m.GetOr(Unexpected))), steps)
          case Returned(LinkError(m)) => Response(400, Refused(m), steps)
          case Returned(Generated(userId, _)) => Response(200, Invited(userId), steps)
  }

  /** A body without a truthy email is refused with 400 before any provider
      call. */
  lemma MissingEmailRefused(req: AdminRequest, client: Call<()>, generateLink: LinkRequest -> Call<LinkReply>)
    requires !Truthy(req.email)
    ensures Post(Returned(req), client, generateLink) == Response(400, Refused(Some(EmailRequired)), [])
  {
  }

  /** With a truthy email and a client, the provider is asked exactly once,
      for an invite to that email with the posted redirect, and its answer
      decides the status: 200 with the user id, 400 with the provider's
      message, 500 when it throws. */
  lemma ProviderDecides(req: AdminRequest, generateLink: LinkRequest -> Call<LinkReply>)
    requires Truthy(req.email)
    ensures var lr := LinkRequest(Invite, req.email.value, req.redirectTo);
      var r := Post(Returned(req), Returned(()), generateLink);
      && r.steps == [CreateClient, GenerateLink(lr)]
      && (generateLink(lr).Returned? && generateLink(lr).value.Generated? <==> r.status == 200)
      && (r.status == 200 ==> r.body.userId == generateLink(lr).value.userId)
      && (generateLink(lr).Returned? && generateLink(lr).value.LinkError? <==> r.status == 400)
      && (r.status == 400 ==> r.body == Refused(generateLink(lr).value.message))
      && (generateLink(lr).Threw? <==> r.status == 500)
  {
  }

  /** The answer is 500 exactly when something threw: the body parse, the
      client creation or the provider call; the error is the exception's
      message, or 'Error inesperado' when it has none (an empty message is
      kept as it is). */
  lemma ThrownIs500(request: Call<AdminRequest>, client: Call<()>, generateLink: LinkRequest -> Call<LinkReply>)
    ensures var r := Post(request, client, generateLink);
      r.status == 500 <==>
        || request.Threw?
        || (Truthy(request.value.email) &&
            (client.Threw? || generateLink(LinkRequest(Invite, request.value.email.value, request.value.redirectTo)).Threw?))
    ensures request.Threw? ==> Post(request, client, generateLink).body == Refused(Some(request.message.GetOr(Unexpected)))
    ensures request.Returned? && Truthy(request.value.email) && client.Threw? ==>
      Post(request, client, generateLink).body == Refused(Some(client.message.GetOr(Unexpected)))
    ensures request.Returned? && Truthy(request.value.email) && client.Returned? ==>
      var lr := LinkRequest(Invite, request.value.email.value, request.value.redirectTo);
      generateLink(lr).Threw? ==>
        Post(request, client, generateLink).body == Refused(Some(generateLink(lr).message.GetOr(Unexpected)))
  {
  }
}
