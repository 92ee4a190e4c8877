/** Configuration entities shared by the loader, the engine and the worker. */
module Configuration {
  import opened Values

  datatype RetryPolicy = RetryPolicy(maxAttempts: int, baseDelayMs: int, maxDelayMs: int, multiplier: real,
      jitter: real)

  datatype VendorConfig = VendorConfig(vendorID: string, baseURL: string, retry: RetryPolicy)

  /** A vendor file as read: the two delays in milliseconds, or why their text is no duration. */
  datatype VendorFile = VendorFile(
    baseURL: string,
    maxAttempts: int,
    baseDelayMs: Result<int, string>,
    maxDelayMs: Result<int, string>,
    multiplier: real,
    jitter: real)

  datatype RoutingRule = RoutingRule(eventType: string, vendorID: string)

  datatype RequestConfig = RequestConfig(method_: string, path: string, headers: map<string, string>)

  datatype BodyConfig = BodyConfig(kind: string, template: map<string, Value>)

  datatype MappingConfig = MappingConfig(eventType: string, request: RequestConfig, body: BodyConfig)

  datatype DeliverySpec = DeliverySpec(mapping: MappingConfig, retry: Option<RetryPolicy>)

  datatype ConfigError =
    | NotConfigured
    | LoadFailed(reason: string)
    | BadDuration(what: string, reason: string)
    | MissingVendor(vendorID: string)
    | UndeclaredField(field: string, eventType: string)

  /** A loaded item or why it could not be loaded; an item may also be absent without an error. */
  datatype Loaded<+T> = Loaded(value: Option<T>, error: Option<ConfigError>)
}
