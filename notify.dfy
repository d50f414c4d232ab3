/**
 * Telegram notification: `send_tg`. The HTTP calls themselves are outside the
 * model; what is kept is the decision of what, if anything, is posted, and
 * the fact that a failed delivery never reaches the caller.
 */
module Notify {
  import opened Wrappers

  /** The two optional settings read from `TG_TOKEN` and `TG_CHAT_ID`. */
  datatype TgConfig = TgConfig(token: Option<string>, chatId: Option<string>)

  /** A setting counts only when it is present and non-empty (Python truthiness). */
  predicate Set(v: Option<string>) {
    v.Some? && v.value != []
  }

  /** One post to the Bot API. */
  datatype Request =
    | SendPhoto(token: string, chatId: string, caption: string, photo: string)
    | SendMessage(token: string, chatId: string, text: string)

  /**
   * What `send_tg(message, photo_path)` posts: nothing unless both settings
   * are set; a photo with the message as caption when a non-empty photo path
   * names an existing file; the bare message otherwise.
   */
  function Delivery(cfg: TgConfig, message: string, photo: Option<string>, present: bool): (r: Option<Request>)
    ensures r.None? <==> !Set(cfg.token) || !Set(cfg.chatId)
    ensures r.Some? ==> r.value.token == cfg.token.value && r.value.chatId == cfg.chatId.value
    ensures r.Some? && r.value.SendPhoto? ==> r.value.caption == message && photo == Some(r.value.photo)
    ensures r.Some? && r.value.SendMessage? ==> r.value.text == message
    ensures r.Some? ==> (r.value.SendPhoto? <==> photo.Some? && photo.value != [] && present)
  {
    if !Set(cfg.token) || !Set(cfg.chatId) then None
    else if photo.Some? && photo.value != [] && present then
      Some(SendPhoto(cfg.token.value, cfg.chatId.value, message, photo.value))
    else
      Some(SendMessage(cfg.token.value, cfg.chatId.value, message))
  }

  /** The notifier of the process: its settings and every post it has attempted. */
  class Telegram {
    const config: TgConfig
    var sent: seq<Request>

    constructor (config: TgConfig)
      ensures this.config == config && sent == []
    {
      this.config := config;
      sent := [];
    }

    /**
     * `send_tg`. A post that fails is logged and swallowed, so the method has
     * no failure result: the caller always carries on.
     */
    method Send(message: string, photo: Option<string>, present: bool)
      modifies this
      ensures sent == old(sent) + AsSeq(Delivery(config, message, photo, present))
    {
      var request := Delivery(config, message, photo, present);
      if request.Some? {
        sent := sent + [request.value];
      }
    }
  }
}
