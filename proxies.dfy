/** The proxy record of a Clash subscription, as the handlers read it after YAML
    parsing, and the parsed configuration that carries the proxy list. */
module Proxies {
  import opened Wrappers

  /** The `plugin-opts` object of a Shadowsocks record. */
  datatype PluginOpts = PluginOpts(mode: Option<string>, host: Option<string>)

  /** One entry of `proxies`. The YAML key `type` is `kind` here; `plugin-opts`,
      `skip-cert-verify` and `ws-path` are `pluginOpts`, `skipCertVerify` and `wsPath`. */
  datatype Proxy = Proxy(
    name: Option<string>,
    kind: Option<string>,
    server: string,
    port: nat,
    cipher: Option<string>,
    password: Option<string>,
    plugin: Option<string>,
    pluginOpts: Option<PluginOpts>,
    udp: Option<bool>,
    uuid: Option<string>,
    skipCertVerify: Option<bool>,
    servername: Option<string>,
    tls: Option<bool>,
    network: Option<string>,
    wsPath: Option<string>,
    sni: Option<string>)

  /** The parsed document; `proxies` is `None` when the key is missing. */
  datatype Config = Config(proxies: Option<seq<Proxy>>)
}
