/**
 * The configuration the plugin reads on every call: the PHP constants in
 * effect and the WordPress option table. Nothing is cached between calls,
 * so each operation below takes the configuration as an argument.
 */
module Options {
  import opened Php

  datatype Config = Config(constants: map<string, PhpValue>, options: map<string, PhpValue>)

  // Option names used by the deploy logic.
  const WebhookAddressOption := "webhook_address"
  const AccessTokenOption := "github_access_token"
  const DeployBranchOption := "github_deploy_branch"
  const EnableOnPostUpdateOption := "enable_on_post_update"
  const EnableScheduledBuildsOption := "enable_scheduled_builds"
  const ScheduleOption := "select_schedule_builds"
  const TimeOption := "select_time_build"

  // Constant names the plugin inspects.
  const WebhookAddressConstant := "WP_WEBHOOK_ADDRESS"
  const RestRequestConstant := "REST_REQUEST"

  /** `get_option(name)`: the stored value, or `false` when it was never saved. */
  function GetOption(cfg: Config, name: string): PhpValue {
    if name in cfg.options then cfg.options[name] else Bool(false)
  }

  /** `defined(name) && name`: the constant exists and converts to true. */
  predicate ConstantIsTruthy(cfg: Config, name: string) {
    name in cfg.constants && Truthy(cfg.constants[name])
  }
}
