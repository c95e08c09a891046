/** The Cache-Control policy of `CacheMiddleware.dispatch` in
    backend/app/core/middleware.py. */
module Middleware {
  import opened Wrappers
  import opened Text

  const HourPolicy := "public, max-age=3600"
  const FiveMinutePolicy := "public, max-age=300"
  const HalfHourPolicy := "public, max-age=1800"
  const NoCachePolicy := "no-cache, no-store, must-revalidate"

  /** The header value chosen for a request, `None` when none is written:
      only GET requests get one, and the first path match wins. */
  function CachePolicy(requestMethod: string, path: string): (r: Option<string>)
    ensures r.None? <==> requestMethod != "GET"
    ensures r == Some(HourPolicy) <==> requestMethod == "GET" && Contains(path, "/api/v1/schedules")
    ensures r == Some(FiveMinutePolicy) <==>
      requestMethod == "GET" && !Contains(path, "/api/v1/schedules") && Contains(path, "/api/v1/notices")
    ensures r == Some(HalfHourPolicy) <==>
      requestMethod == "GET" && !Contains(path, "/api/v1/schedules") && !Contains(path, "/api/v1/notices") &&
      Contains(path, "/api/v1/programs")
    ensures r == Some(NoCachePolicy) <==>
      requestMethod == "GET" && !Contains(path, "/api/v1/schedules") && !Contains(path, "/api/v1/notices") &&
      !Contains(path, "/api/v1/programs")
  {
    if requestMethod != "GET" then None
    else if Contains(path, "/api/v1/schedules") then Some(HourPolicy)
    else if Contains(path, "/api/v1/notices") then Some(FiveMinutePolicy)
    else if Contains(path, "/api/v1/programs") then Some(HalfHourPolicy)
    else Some(NoCachePolicy)
  }

  /** The response `call_next` produced, with its mutable headers. */
  class HttpResponse {
    var headers: map<string, string>

    constructor (headers: map<string, string>)
      ensures this.headers == headers
    {
      this.headers := headers;
    }
  }

  /** `dispatch` after `call_next`: writes `Cache-Control` over any value
      already present, and leaves every other header alone. */
  method Dispatch(requestMethod: string, path: string, response: HttpResponse)
    modifies response
    ensures CachePolicy(requestMethod, path).Some? ==>
      response.headers == old(response.headers)["Cache-Control" := CachePolicy(requestMethod, path).value]
    ensures CachePolicy(requestMethod, path).None? ==> response.headers == old(response.headers)
  {
    if requestMethod == "GET" {
      if Contains(path, "/api/v1/schedules") {
        response.headers := response.headers["Cache-Control" := HourPolicy];
      } else if Contains(path, "/api/v1/notices") {
        response.headers := response.headers["Cache-Control" := FiveMinutePolicy];
      } else if Contains(path, "/api/v1/programs") {
        response.headers := response.headers["Cache-Control" := HalfHourPolicy];
      } else {
        response.headers := response.headers["Cache-Control" := NoCachePolicy];
      }
    }
  }

  /** A GET for a path naming both schedules and notices gets the schedule
      policy: the schedule test comes first. */
  lemma FirstMatchWins(path: string)
    requires Contains(path, "/api/v1/schedules") && Contains(path, "/api/v1/notices")
    ensures CachePolicy("GET", path) == Some(HourPolicy)
  {
  }

  /** The schedule route gets the hour policy, and only for GET. */
  lemma SchedulesPolicy()
    ensures CachePolicy("GET", "/api/v1/schedules") == Some(HourPolicy)
    ensures CachePolicy("POST", "/api/v1/schedules") == None
  {
    ContainsAt("/api/v1/schedules", "/api/v1/schedules", 0);
  }

  /** The notice route is not caught by the schedule test. */
  lemma NoticesPolicy()
    ensures CachePolicy("GET", "/api/v1/notices") == Some(FiveMinutePolicy)
  {
    ContainsAt("/api/v1/notices", "/api/v1/notices", 0);
    NotContainsLonger("/api/v1/notices", "/api/v1/schedules");
  }

  /** The program route passes both earlier tests. */
  lemma ProgramsPolicy()
    ensures CachePolicy("GET", "/api/v1/programs") == Some(HalfHourPolicy)
  {
    NotContainsWithoutChar("/api/v1/programs", "/api/v1/notices", 8);
    NotContainsLonger("/api/v1/programs", "/api/v1/schedules");
    ContainsAt("/api/v1/programs", "/api/v1/programs", 0);
  }

  /** A pattern longer than the text cannot occur in it. */
  lemma NotContainsLonger(s: string, k: string)
    requires |s| < |k|
    ensures !Contains(s, k)
  {
    if Contains(s, k) {
      ContainsLength(s, k);
    }
  }
}
