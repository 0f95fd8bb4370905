/**
 * The proxy record that the credential scheduler and the pool registry hand to the HTTP
 * client. Building clients is not part of this model; only the record is.
 */
module HttpClient {
  import opened Wrappers

  datatype ProxyConfig = ProxyConfig(url: string, username: Option<string>, password: Option<string>)
}
