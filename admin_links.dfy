/** What the two admin link routes share
    (server/api/admin/auth/invite/route.ts and
    1/felxeasy/server/api/admin/auth/magic-link/route.ts): the request body
    they read, the link request they send to the auth provider's admin API,
    and what that API answers. */
module AdminLinks {
  import opened Common

  /** The two fields destructured from the JSON request body. */
  datatype AdminRequest = AdminRequest(email: Option<string>, redirectTo: Option<string>)

  datatype LinkType = Invite | MagicLink

  /** `generateLink({ type, email, options: { redirectTo } })` */
  datatype LinkRequest = LinkRequest(kind: LinkType, email: string, redirectTo: Option<string>)

  /** The provider's `{ data, error }`: an error with its message, or the
      generated link's user id and action link. */
  datatype LinkReply =
    | LinkError(message: Option<string>)
    | Generated(userId: Option<string>, actionLink: Option<string>)

  /** The provider calls a route makes, in order. */
  datatype Step = CreateClient | GenerateLink(request: LinkRequest)

  /** The steps a route takes for a request body whose email is truthy. */
  function LinkSteps(kind: LinkType, req: AdminRequest, client: Call<()>): (steps: seq<Step>)
    requires Truthy(req.email)
    ensures |steps| >= 1 && steps[0] == CreateClient
    ensures |steps| == 2 <==> client.Returned?
    ensures client.Returned? ==> steps[1] == GenerateLink(LinkRequest(kind, req.email.value, req.redirectTo))
  {
    if client.Threw? then [CreateClient]
    else [CreateClient, GenerateLink(LinkRequest(kind, req.email.value, req.redirectTo))]
  }
}
