/** The client's configuration object: static defaults, updated only by `Client.Init`. */
module Config {
  import opened Wrappers

  const DefaultEndpoint: string := "https://api.agentops.ai"
  const DefaultMaxWaitTime: int := 5000
  const DefaultMaxQueueSize: int := 512

  class Configuration {
    var endpoint: string
    var apiKey: Option<string>
    var parentKey: Option<string>
    /** Batch delay in milliseconds. */
    var maxWaitTime: int
    /** Largest batch handed to the exporter. */
    var maxQueueSize: int
    var autoStartSessions: bool

    constructor()
      ensures endpoint == DefaultEndpoint && apiKey == None && parentKey == None
      ensures maxWaitTime == DefaultMaxWaitTime && maxQueueSize == DefaultMaxQueueSize
      ensures autoStartSessions
    {
      endpoint := DefaultEndpoint;
      apiKey := None;
      parentKey := None;
      maxWaitTime := DefaultMaxWaitTime;
      maxQueueSize := DefaultMaxQueueSize;
      autoStartSessions := true;
    }
  }
}
