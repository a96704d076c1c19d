/** The HTTP service behind `requests.get(url).content` followed by `json.loads`:
    a fixed answer per URL, and a log of every URL requested, so that the number of
    fetches an operation makes is the growth of the log. */
module Network {
  import opened Wrappers
  import opened Json

  class Service {
    /** The decoded body served at each URL; `None` when the request or the JSON
        decoding fails. */
    const answer: string -> Option<Json>
    /** Every URL requested so far, oldest first. */
    var log: seq<string>

    constructor (answer: string -> Option<Json>)
      ensures this.answer == answer && log == []
    {
      this.answer := answer;
      log := [];
    }

    /** One request: recorded in the log, answered by `answer`. */
    method Get(url: string) returns (r: Option<Json>)
      modifies this`log
      ensures log == old(log) + [url]
      ensures r == answer(url)
    {
      log := log + [url];
      r := answer(url);
    }
  }
}
