/**
 * `translate` and `get_or_create_translator`. The translation service is not modelled:
 * a client carries it as a function from (text, source code, target code) to the reply
 * the service sends back.
 */
module Translation {

  /** The HTTP status that marks a successful translation. */
  const TranslateOk: int := 200

  /** The reply of `translate_text`: the HTTP status, the text and the language codes it resolved. */
  datatype Reply = Reply(
    httpStatus: int,
    translatedText: string,
    sourceLanguageCode: string,
    targetLanguageCode: string)

  /** The translation service as seen from one client. */
  type Service = (string, string, string) -> Reply

  /** The map `translate` returns: `{}` on failure, or `text`, `src` and `dest`. */
  datatype TranslateResult = Failed | Translated(text: string, src: string, dest: string)

  /** A client of the translation service, bound to a region. */
  class TranslateClient {
    const region: string
    const service: Service

    constructor (region: string, service: Service)
      ensures this.region == region && this.service == service
    {
      this.region := region;
      this.service := service;
    }
  }

  /**
   * `translate`: one request; on status 200 the translated text together with the codes
   * that were REQUESTED, not the ones the service resolved; on any other status `{}`.
   */
  function Translate(client: TranslateClient, text: string, src: string := "auto", dest: string := "ko"): (r: TranslateResult)
    ensures r.Translated? <==> client.service(text, src, dest).httpStatus == TranslateOk
    ensures r.Translated? ==> r.text == client.service(text, src, dest).translatedText
    ensures r.Translated? ==> r.src == src && r.dest == dest
  {
    var res := client.service(text, src, dest);
    if TranslateOk == res.httpStatus then Translated(res.translatedText, src, dest) else Failed
  }

  /** Even when the service detects another source language, the result keeps the requested code. */
  lemma RequestedCodesKept(client: TranslateClient, text: string, dest: string)
    requires client.service(text, "auto", dest).httpStatus == TranslateOk
    ensures Translate(client, text, "auto", dest) ==
            Translated(client.service(text, "auto", dest).translatedText, "auto", dest)
  {
  }

  /** The process-wide `TRANS_CLIENT` slot, empty when the process starts. */
  class TranslatorHolder {
    var client: TranslateClient?
    /** How many clients this process has constructed. */
    ghost var constructions: nat

    /** At most one client is ever constructed, and it is the one held. */
    ghost predicate Valid()
      reads this
    {
      && constructions <= 1
      && (client == null <==> constructions == 0)
    }

    constructor ()
      ensures Valid() && client == null && constructions == 0
    {
      client := null;
      constructions := 0;
    }

    /**
     * `get_or_create_translator`: the first call constructs a client for `region`; every
     * later call returns that same client, whatever region it passes.
     */
    method GetOrCreateTranslator(region: string, service: Service) returns (c: TranslateClient)
      requires Valid()
      modifies this
      ensures Valid()
      ensures client == c
      ensures old(client) != null ==> c == old(client) && constructions == old(constructions)
      ensures old(client) == null ==>
                fresh(c) && c.region == region && c.service == service && constructions == 1
    {
      if client == null {
        client := new TranslateClient(region, service);
        constructions := constructions + 1;
      }
      c := client;
    }
  }

  /** Two calls in one process share one client, constructed once. */
  method TwoCallsShareClient(holder: TranslatorHolder, region: string, other: string, service: Service)
    returns (first: TranslateClient, second: TranslateClient)
    requires holder.Valid()
    modifies holder
    ensures holder.Valid() && holder.constructions == 1
    ensures first == second == holder.client
  {
    first := holder.GetOrCreateTranslator(region, service);
    second := holder.GetOrCreateTranslator(other, service);
  }
}
