/** The user-upsert middleware of internal/bot/mwupsert.go: every update's sender is
    stored (or refreshed) before the rest of the stack runs, and the stored user's id
    is attached to the update's context for the handlers. */
module Upsert {
  import opened Wrappers
  import Translate
  import opened Transport
  import opened Handle
  import Service

  class UserUpsertMiddleware {
    /** The middleware's own context, the base of the context it attaches. */
    const ctx: Context
    const service: Service.Service
    const localize: Translate.Localizer

    constructor (ctx: Context, service: Service.Service, localize: Translate.Localizer)
      ensures this.ctx == ctx && this.service == service && this.localize == localize
    {
      this.ctx := ctx;
      this.service := service;
      this.localize := localize;
    }

    /** The error message: the translated `error_500` text and a newline. */
    function ErrorText(): (r: string)
      ensures |r| >= 1 && r[|r| - 1] == '\n'
      ensures r[..|r| - 1] == Translate.Translate(localize, Translate.Error500Tr, Translate.UALang)
    {
      Translate.Translate(localize, Translate.Error500Tr, Translate.UALang) + "\n"
    }

    /** `Handle`: the sender is upserted with its Telegram id, chat and user name. On
        failure one error message goes to the chat (its send result ignored) and `next`
        is not called; on success the update's context becomes this middleware's context
        carrying `user_id`, and `next` is called exactly once. `nextCalls` counts the
        calls of `next`. */
    method Handle(u: Update) returns (request: Service.CreateUser, sent: seq<Outgoing>, nextCalls: nat)
      requires User(u).Some? && ChatID(u).Some?
      modifies u`ctx
      ensures request == Service.CreateUser(User(u).value.id, ChatID(u).value, User(u).value.userName)
      ensures var r := Service.NewUser(service, request);
              && nextCalls == (if Continues(UserUpsert, r.1.None?) then 1 else 0)
              && (r.1.Some? ==>
                    sent == [Outgoing(ChatID(u).value, Raw(ErrorText()), NoMarkup)] && u.ctx == old(u.ctx))
              && (r.1.None? ==>
                    && sent == [] && u.ctx == WithValue(ctx, UserIDCtxKey, r.0.id)
                    && UserID(u) == Some(r.0.id)
                    && forall k :: k != UserIDCtxKey ==> Value(u.ctx, k) == Value(ctx, k))
    {
      request := Service.CreateUser(User(u).value.id, ChatID(u).value, User(u).value.userName);
      var res := Service.NewUser(service, request);
      var user, err := res.0, res.1;
      if err.Some? {
        sent := [Outgoing(ChatID(u).value, Raw(ErrorText()), NoMarkup)];
        return request, sent, 0;
      }
      u.ctx := WithValue(ctx, UserIDCtxKey, user.id);
      return request, [], 1;
    }
  }
}
