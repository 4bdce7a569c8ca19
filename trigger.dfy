/**
 * Publish-event trigger: the two post hooks that may start a deploy. Each
 * one either ignores the event or calls the dispatcher; the `$post` and
 * `$post_id` arguments are not read by either and are not modelled.
 */
module Trigger {
  import opened Wrappers
  import opened Php
  import opened Options
  import opened Dispatcher

  /** What a hook did: nothing, or a deploy with the request it sent (if any). */
  datatype Reaction = Ignored | Deployed(sent: Option<Request>)

  const Publish := "publish"

  /** `enable_on_post_update` is truthy. */
  predicate DeployOnUpdateEnabled(cfg: Config) {
    Truthy(GetOption(cfg, EnableOnPostUpdateOption))
  }

  /** `defined('REST_REQUEST') && REST_REQUEST`. */
  predicate IsRestRequest(cfg: Config) {
    ConstantIsTruthy(cfg, RestRequestConstant)
  }

  /** `vb_webhook_post($new_status, $old_status, $post)`. */
  function VbWebhookPost(cfg: Config, newStatus: string, oldStatus: string): Reaction {
    if DeployOnUpdateEnabled(cfg) && !IsRestRequest(cfg) && (newStatus == Publish || oldStatus == Publish) then
      Deployed(FireGithubDeploy(cfg))
    else
      Ignored
  }

  /** `vb_webhook_future_post($post_id)`. */
  function VbWebhookFuturePost(cfg: Config): Reaction {
    if DeployOnUpdateEnabled(cfg) then Deployed(FireGithubDeploy(cfg)) else Ignored
  }

  /**
   * The transition hook deploys exactly when deploy-on-update is enabled, the
   * request is not a REST request and the post enters or leaves `publish`;
   * it then sends `FireGithubDeploy(cfg)`, the request `fire_github_deploy`
   * builds, just as the future-post hook does.
   */
  lemma TransitionDeploysIff(cfg: Config, newStatus: string, oldStatus: string)
    ensures VbWebhookPost(cfg, newStatus, oldStatus).Deployed? <==>
            && DeployOnUpdateEnabled(cfg)
            && !IsRestRequest(cfg)
            && (newStatus == Publish || oldStatus == Publish)
    ensures VbWebhookPost(cfg, newStatus, oldStatus).Deployed? ==>
            VbWebhookPost(cfg, newStatus, oldStatus) == VbWebhookFuturePost(cfg) == Deployed(FireGithubDeploy(cfg))
  {
  }

  /**
   * The future-post hook deploys exactly when deploy-on-update is enabled, and
   * then sends `FireGithubDeploy(cfg)`.
   */
  lemma FuturePostDeploysIff(cfg: Config)
    ensures VbWebhookFuturePost(cfg).Deployed? <==> DeployOnUpdateEnabled(cfg)
    ensures VbWebhookFuturePost(cfg).Deployed? ==> VbWebhookFuturePost(cfg) == Deployed(FireGithubDeploy(cfg))
  {
  }

  /** Transitions seen through the REST API (the block editor's save) never deploy. */
  lemma RestTransitionsNeverDeploy(cfg: Config, newStatus: string, oldStatus: string)
    requires IsRestRequest(cfg)
    ensures VbWebhookPost(cfg, newStatus, oldStatus) == Ignored
  {
  }

  /** With `enable_on_post_update` falsy neither hook deploys. */
  lemma DisabledNeverDeploys(cfg: Config, newStatus: string, oldStatus: string)
    requires !DeployOnUpdateEnabled(cfg)
    ensures VbWebhookPost(cfg, newStatus, oldStatus) == Ignored
    ensures VbWebhookFuturePost(cfg) == Ignored
  {
  }

  /** Truth table for an enabled, non-REST request. */
  lemma TransitionTruthTable(cfg: Config)
    requires DeployOnUpdateEnabled(cfg) && !IsRestRequest(cfg)
    ensures VbWebhookPost(cfg, "publish", "draft").Deployed?
    ensures VbWebhookPost(cfg, "draft", "publish").Deployed?
    ensures VbWebhookPost(cfg, "publish", "publish").Deployed?
    ensures VbWebhookPost(cfg, "trash", "publish").Deployed?
    ensures VbWebhookPost(cfg, "pending", "draft") == Ignored
    ensures VbWebhookPost(cfg, "draft", "draft") == Ignored
    ensures VbWebhookPost(cfg, "future", "draft") == Ignored
  {
    assert "pending" != Publish && "draft" != Publish && "future" != Publish by {
      assert "pending"[1] != Publish[1] && "draft"[0] != Publish[0] && |"future"| != |Publish|;
    }
  }

  /** The future-post hook looks at neither the REST flag nor any status. */
  lemma FuturePostIgnoresRestFlag(cfg: Config, rest: PhpValue)
    ensures VbWebhookFuturePost(cfg.(constants := cfg.constants[RestRequestConstant := rest]))
            == VbWebhookFuturePost(cfg)
  {
    var cfg' := cfg.(constants := cfg.constants[RestRequestConstant := rest]);
    assert RestRequestConstant != WebhookAddressConstant by {
      assert RestRequestConstant[0] != WebhookAddressConstant[0];
    }
    assert GetWebhookAddress(cfg') == GetWebhookAddress(cfg);
  }
}
