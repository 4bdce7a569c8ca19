/**
 * Deploy dispatcher: resolves the workflow-dispatch URL and builds the one
 * POST request a deploy sends. The transport itself (`wp_remote_post`) is not
 * modelled: a deploy is the request value it would hand over, or `None` when
 * the plugin returns `false` without sending anything.
 */
module Dispatcher {
  import opened Wrappers
  import opened Php
  import opened Options

  /** The arguments of one `wp_remote_post` call. */
  datatype Request = Request(
    httpMethod: string,
    url: PhpValue,
    headers: map<string, string>,
    body: map<string, PhpValue>)

  const BearerPrefix := "Bearer "

  /** The `WP_WEBHOOK_ADDRESS` constant is defined and not empty. */
  predicate IsUsingConstantWebhook(cfg: Config) {
    ConstantIsTruthy(cfg, WebhookAddressConstant)
  }

  /** The dispatch URL: the constant when it is in use, the option otherwise. */
  function GetWebhookAddress(cfg: Config): PhpValue {
    if IsUsingConstantWebhook(cfg) then cfg.constants[WebhookAddressConstant]
    else GetOption(cfg, WebhookAddressOption)
  }

  function GetGithubAccessToken(cfg: Config): PhpValue {
    GetOption(cfg, AccessTokenOption)
  }

  function GetGithubDeployBranch(cfg: Config): PhpValue {
    GetOption(cfg, DeployBranchOption)
  }

  /** The `Authorization` header value, `'Bearer ' . $token`. */
  function BearerHeader(token: PhpValue): string {
    BearerPrefix + ToStr(token)
  }

  /** What a receiver reads back from an `Authorization` header. */
  function BearerToken(header: string): Option<string> {
    if |BearerPrefix| <= |header| && header[..|BearerPrefix|] == BearerPrefix then
      Some(header[|BearerPrefix|..])
    else
      None
  }

  /** `fire_github_deploy`: the request sent, or `None` when nothing is sent. */
  function FireGithubDeploy(cfg: Config): Option<Request> {
    var webhookUrl := GetWebhookAddress(cfg);
    if Truthy(webhookUrl) then
      Some(Request(
             "POST",
             webhookUrl,
             map["Authorization" := BearerHeader(GetGithubAccessToken(cfg))],
             map["ref" := GetGithubDeployBranch(cfg)]))
    else
      None
  }

  /** A defined, non-empty constant wins: the option table no longer matters. */
  lemma ConstantOverridesOption(cfg: Config, options: map<string, PhpValue>)
    requires IsUsingConstantWebhook(cfg)
    ensures GetWebhookAddress(cfg) == cfg.constants[WebhookAddressConstant]
    ensures GetWebhookAddress(cfg.(options := options)) == GetWebhookAddress(cfg)
  {
  }

  /**
   * A constant that is undefined, or defined but empty (`''`, `'0'`, `false`,
   * `null`, `[]`), leaves the `webhook_address` option in charge.
   */
  lemma FalsyConstantFallsBack(cfg: Config)
    requires !IsUsingConstantWebhook(cfg)
    ensures GetWebhookAddress(cfg) == GetOption(cfg, WebhookAddressOption)
  {
  }

  /** The bearer header always parses back to the token's string form. */
  lemma BearerRoundTrip(token: PhpValue)
    ensures BearerToken(BearerHeader(token)) == Some(ToStr(token))
  {
    var h := BearerHeader(token);
    assert h[..|BearerPrefix|] == BearerPrefix;
    assert h[|BearerPrefix|..] == ToStr(token);
  }

  /**
   * A deploy sends nothing exactly when neither a non-empty constant nor a
   * truthy `webhook_address` option gives an address.
   */
  lemma NothingSentIffNoAddress(cfg: Config)
    ensures FireGithubDeploy(cfg).None? <==>
            !IsUsingConstantWebhook(cfg) && !Truthy(GetOption(cfg, WebhookAddressOption))
  {
  }

  /**
   * When a request is sent it is one POST to the resolved address itself, with
   * one header carrying the token and one body field carrying the branch.
   */
  lemma RequestContents(cfg: Config)
    requires FireGithubDeploy(cfg).Some?
    ensures var req := FireGithubDeploy(cfg).value;
            && req.httpMethod == "POST"
            && req.url == GetWebhookAddress(cfg)
            && Truthy(req.url)
            && req.headers.Keys == {"Authorization"}
            && BearerToken(req.headers["Authorization"]) == Some(ToStr(GetGithubAccessToken(cfg)))
            && req.body.Keys == {"ref"}
            && req.body["ref"] == GetGithubDeployBranch(cfg)
  {
    BearerRoundTrip(GetGithubAccessToken(cfg));
  }

  /**
   * Token and branch are not checked: with an address but neither option saved,
   * the request still goes out, with the header `Bearer ` and `ref` = `false`.
   */
  lemma UnsetCredentialsStillSent(cfg: Config)
    requires Truthy(GetWebhookAddress(cfg))
    requires AccessTokenOption !in cfg.options && DeployBranchOption !in cfg.options
    ensures FireGithubDeploy(cfg) == Some(Request(
              "POST", GetWebhookAddress(cfg),
              map["Authorization" := "Bearer "], map["ref" := Bool(false)]))
  {
    assert BearerHeader(Bool(false)) == "Bearer ";
  }
}
