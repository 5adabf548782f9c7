/** The admin magic-link route
    (1/felxeasy/server/api/admin/auth/magic-link/route.ts): asks the auth
    provider for a sign-in link for the posted email and returns it. */
module MagicLinkRoute {
  import opened Common
  import opened AdminLinks
  import InviteRoute

  const EmailRequired := "Email requerido"
  const Fallback := "Error"

  /** `{ error }` or `{ ok: true, link }` (`None` when the provider's reply
      has no action link). */
  datatype Body = Failed(error: string) | Linked(link: Option<string>)

  datatype Response = Response(status: int, body: Body, steps: seq<Step>)

  /** `POST`, with the same inputs as the invite route. A provider error is
      thrown and caught like any other exception. */
  function Post(request: Call<AdminRequest>, client: Call<()>, generateLink: LinkRequest -> Call<LinkReply>): (r: Response)
    ensures r.status == 200 <==> r.body.Linked?
    ensures r.status == 200 || r.status == 400 || r.status == 500
    ensures r.body.Failed? ==> r.body.error != ""
    ensures r.steps == [] <==> request.Threw? || !Truthy(request.value.email)
  {
    match request
    case Threw(m) => Response(500, Failed(Or(m, Fallback)), [])
    case Returned(req) =>
      if !Truthy(req.email) then Response(400, Failed(EmailRequired), [])
      else
        var steps := LinkSteps(MagicLink, req, client);
        match client
        case Threw(m) => Response(500, Failed(Or(m, Fallback)), steps)
        case Returned(_) =>
          match generateLink(LinkRequest(MagicLink, req.email.value, req.redirectTo))
          case Threw(m) => Response(500, Failed(Or(m, Fallback)), steps)
          case Returned(LinkError(m)) => Response(500, Failed(Or(m, Fallback)), steps)
          case Returned(Generated(_, link)) => Response(200, Linked(link), steps)
  }

  /** The only 400 is the missing email; every failure after it, the
      provider's own error included, is a 500. */
  lemma Only400IsMissingEmail(request: Call<AdminRequest>, client: Call<()>, generateLink: LinkRequest -> Call<LinkReply>)
    ensures var r := Post(request, client, generateLink);
      r.status == 400 <==> request.Returned? && !Truthy(request.value.email)
    ensures var r := Post(request, client, generateLink);
      r.status == 400 ==> r == Response(400, Failed(EmailRequired), [])
  {
  }

  /** With a truthy email and a client, the provider is asked exactly once,
      for a magic link to that email with the posted redirect; its link is
      returned when it answers with one, and its error message (or 'Error'
      when that is empty or missing) otherwise. */
  lemma ProviderDecides(req: AdminRequest, generateLink: LinkRequest -> Call<LinkReply>)
    requires Truthy(req.email)
    ensures var lr := LinkRequest(MagicLink, req.email.value, req.redirectTo);
      var r := Post(Returned(req), Returned(()), generateLink);
      && r.steps == [CreateClient, GenerateLink(lr)]
      && (r.status == 200 <==> generateLink(lr).Returned? && generateLink(lr).value.Generated?)
      && (r.status == 200 ==> r.body.link == generateLink(lr).value.actionLink)
      && (generateLink(lr).Returned? && generateLink(lr).value.LinkError? ==>
            r == Response(500, Failed(Or(generateLink(lr).value.message, Fallback)), r.steps))
      && (generateLink(lr).Threw? ==>
            r == Response(500, Failed(Or(generateLink(lr).message, Fallback)), r.steps))
  {
  }

  /** Every caught exception, wherever it was thrown, is answered with 500
      and its message, or 'Error' when that is empty or missing; a failed
      body parse makes no provider call. */
  lemma CaughtIs500(request: Call<AdminRequest>, client: Call<()>, generateLink: LinkRequest -> Call<LinkReply>)
    ensures var r := Post(request, client, generateLink);
      r.status == 500 <==>
        || request.Threw?
        || (Truthy(request.value.email) &&
            var lr := LinkRequest(MagicLink, request.value.email.value, request.value.redirectTo);
            (client.Threw? || generateLink(lr).Threw? || generateLink(lr).value.LinkError?))
    ensures request.Threw? ==>
      Post(request, client, generateLink) == Response(500, Failed(Or(request.message, Fallback)), [])
    ensures request.Returned? && Truthy(request.value.email) && client.Threw? ==>
      Post(request, client, generateLink) == Response(500, Failed(Or(client.message, Fallback)), [CreateClient])
  {
  }

  /** The two routes validate a body the same way and make the same provider
      calls apart from the link type; they differ in how they answer a
      provider error (400 from the invite route, 500 here) and in the
      fallback for an empty exception message (kept by the invite route,
      replaced by 'Error' here). */
  lemma {:induction false} RoutesAgreeOnCalls(request: Call<AdminRequest>, client: Call<()>, generateLink: LinkRequest -> Call<LinkReply>)
    ensures var invite := InviteRoute.Post(request, client, generateLink);
      var magic := Post(request, client, generateLink);
      && |invite.steps| == |magic.steps|
      && (invite.steps == [] <==> magic.steps == [])
      && (invite.status == 400 && invite.steps == [] <==> magic.status == 400)
      && (forall i :: 0 <= i < |magic.steps| ==> SameCallBut(invite.steps[i], magic.steps[i]))
  {
    if request.Returned? && Truthy(request.value.email) {
      var req := request.value;
      var invite := InviteRoute.Post(request, client, generateLink);
      var magic := Post(request, client, generateLink);
      assert invite.steps == LinkSteps(Invite, req, client);
      assert magic.steps == LinkSteps(MagicLink, req, client);
      forall i | 0 <= i < |magic.steps| ensures SameCallBut(invite.steps[i], magic.steps[i]) {
        if i == 1 {
          assert invite.steps[1] == GenerateLink(LinkRequest(Invite, req.email.value, req.redirectTo));
          assert magic.steps[1] == GenerateLink(LinkRequest(MagicLink, req.email.value, req.redirectTo));
        }
      }
    }
  }

  /** Two provider calls that differ at most in the link type. */
  predicate SameCallBut(a: Step, b: Step) {
    match (a, b)
    case (CreateClient, CreateClient) => true
    case (GenerateLink(x), GenerateLink(y)) => x.email == y.email && x.redirectTo == y.redirectTo
    case _ => false
  }

  /** A provider error with a message: the invite route answers 400 with it,
      this route 500 with it. */
  lemma ProviderErrorStatus(req: AdminRequest, generateLink: LinkRequest -> Call<LinkReply>, message: string)
    requires Truthy(req.email) && message != ""
    requires generateLink(LinkRequest(Invite, req.email.value, req.redirectTo)) == Returned(LinkError(Some(message)))
    requires generateLink(LinkRequest(MagicLink, req.email.value, req.redirectTo)) == Returned(LinkError(Some(message)))
    ensures InviteRoute.Post(Returned(req), Returned(()), generateLink).status == 400
    ensures InviteRoute.Post(Returned(req), Returned(()), generateLink).body == InviteRoute.Refused(Some(message))
    ensures Post(Returned(req), Returned(()), generateLink) ==
      Response(500, Failed(message), [CreateClient, GenerateLink(LinkRequest(MagicLink, req.email.value, req.redirectTo))])
  {
  }
}
