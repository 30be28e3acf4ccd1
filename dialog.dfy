/** The older dialog snapshot of internal/bot/dialog.go: its own `MessageHandler`,
    `dialog` and `volunteer`, the `Handle` routing, the role request and reply, and
    the checkbox step. The checkbox helpers of this snapshot (toggle, removal, layout)
    are the same code as volunteer.go's and are the members of module Checkbox.
    The translation keys this snapshot names are not defined in any file of the
    model, so the translator's text for each is an input of the handler. */
module DialogFlow {
  import opened Wrappers
  import opened Checkbox
  import opened Transport
  import opened Handle
  import Session

  /** `cmdStart` */
  const CmdStart := "start"

  /** `roleVolunteer`, `roleSeeker`, and the zero role of a new dialog. */
  datatype Role = NoRole | RoleVolunteer | RoleSeeker

  /** The two handlers `next` can point at in this snapshot. */
  datatype Step = RoleReply | VolunteerCategoryCheckbox

  /** The translation keys of this snapshot. */
  datatype Key = UserRoleRequestKey | RoleSeekerKey | RoleVolunteerKey | ErrorChooseOptionKey | NextButtonKey

  class Volunteer {
    var categories: seq<Category>
    const categoryKeyboard: array<CategoryCheckbox>

    constructor (kb: array<CategoryCheckbox>)
      ensures categories == [] && categoryKeyboard == kb
    {
      categories := [];
      categoryKeyboard := kb;
    }

    /** The selection holds exactly the checked boxes, each once. */
    ghost predicate Valid()
      reads this, categoryKeyboard
    {
      SelectionInv(categoryKeyboard[..], categories)
    }
  }

  /** The empty `seeker` struct of this snapshot is never assigned and is not modelled. */
  class Dialog {
    var role: Role
    var next: Step
    var volunteer: Volunteer?

    constructor (next: Step)
      ensures this.next == next && role == NoRole && volunteer == null
    {
      role := NoRole;
      this.next := next;
      volunteer := null;
    }

    /** The checkbox step always has a volunteer, whose selection is consistent. */
    ghost predicate Valid()
      reads this, volunteer, if volunteer != null then {volunteer.categoryKeyboard} else {}
    {
      (next == VolunteerCategoryCheckbox ==> volunteer != null) &&
      (volunteer != null ==> volunteer.Valid())
    }
  }

  class MessageHandler {
    var state: map<int, Dialog>
    const categories: seq<CategoryTranslated>
    /** The translator's text for each key, in `UALang`. */
    const tr: Key -> string

    constructor (categories: seq<CategoryTranslated>, tr: Key -> string)
      ensures state == map[] && this.categories == categories && this.tr == tr
    {
      state := map[];
      this.categories := categories;
      this.tr := tr;
    }

    ghost predicate Valid()
      reads this
    {
      IdsDistinct(categories)
    }

    /** The objects an update of `chat` may change: the handler, the chat's dialog and
        its volunteer's keyboard. */
    ghost function Footprint(chat: int): set<object>
      reads this, if chat in state then {state[chat]} else {}
    {
      var handler: set<object> := {this};
      handler +
      if chat !in state then {}
      else if state[chat].volunteer == null then {state[chat]}
      else {state[chat], state[chat].volunteer, state[chat].volunteer.categoryKeyboard}
    }
  }

  /** The role keyboard: seeker on the first row, volunteer on the second. */
  function RoleKeyboard(m: MessageHandler): (r: Markup)
    ensures r.ReplyKeyboard? && |r.rows| == 2 && r.rows[0] == [m.tr(RoleSeekerKey)] && r.rows[1] == [m.tr(RoleVolunteerKey)]
  {
    ReplyKeyboard([[m.tr(RoleSeekerKey)], [m.tr(RoleVolunteerKey)]])
  }

  /** `userRoleRequest`: the role question is sent, and only if that succeeded does the
      chat get a fresh dialog waiting for the role reply, replacing any earlier one. */
  method UserRoleRequest(m: MessageHandler, u: Update, sendOk: bool) returns (err: bool, sent: seq<Outgoing>)
    requires ChatID(u).Some?
    modifies m
    ensures var chat := ChatID(u).value;
            && sent == [Outgoing(chat, Raw(m.tr(UserRoleRequestKey)), RoleKeyboard(m))]
            && err == !sendOk
            && (!sendOk ==> m.state == old(m.state))
            && (sendOk ==>
                  && chat in m.state && fresh(m.state[chat])
                  && m.state == old(m.state)[chat := m.state[chat]]
                  && m.state[chat].next == RoleReply && m.state[chat].role == NoRole && m.state[chat].volunteer == null)
  {
    var chat := ChatID(u).value;
    sent := [Outgoing(chat, Raw(m.tr(UserRoleRequestKey)), RoleKeyboard(m))];
    if !sendOk {
      return true, sent;
    }
    var d := new Dialog(RoleReply);
    m.state := m.state[chat := d];
    return false, sent;
  }

  /** `handleUserRoleReply`. The seeker label (matched first) goes to `seekerUserRoleReply`,
      which is not part of this model: its error is the input `seekerErr` and nothing is
      claimed about its effect. The volunteer label makes the dialog a volunteer one with
      an unticked box per category and moves to the checkbox step once the keyboard was
      sent; any other text is answered with an error and changes nothing. */
  method HandleUserRoleReply(m: MessageHandler, u: Update, sendOk: bool, seekerErr: bool)
    returns (err: bool, sent: seq<Outgoing>)
    requires m.Valid() && u.message.Some? && ChatID(u).Some? && ChatID(u).value in m.state
    requires m.state[ChatID(u).value].Valid()
    modifies m.state[ChatID(u).value]
    ensures var chat := ChatID(u).value;
            var d := m.state[chat];
            var text := u.message.value.text;
            && (text == m.tr(RoleSeekerKey) ==> err == seekerErr && sent == [])
            && (text != m.tr(RoleSeekerKey) && text == m.tr(RoleVolunteerKey) ==>
                  && d.role == RoleVolunteer
                  && d.volunteer != null && fresh(d.volunteer) && fresh(d.volunteer.categoryKeyboard)
                  && d.volunteer.categories == [] && d.volunteer.categoryKeyboard[..] == Unchecked(m.categories)
                  && d.next == (if sendOk then VolunteerCategoryCheckbox else old(d.next))
                  && sent == [Outgoing(chat, Raw(m.tr(UserRoleRequestKey)), ReplyKeyboard(Layout(Unchecked(m.categories), "")))]
                  && err == !sendOk
                  && d.Valid())
            && (text != m.tr(RoleSeekerKey) && text != m.tr(RoleVolunteerKey) ==>
                  && unchanged(d)
                  && sent == [Outgoing(chat, Raw(m.tr(ErrorChooseOptionKey)), NoMarkup)]
                  && err == !sendOk)
  {
    var chat := ChatID(u).value;
    var text := u.message.value.text;
    if text == m.tr(RoleSeekerKey) {
      return seekerErr, [];
    }
    if text == m.tr(RoleVolunteerKey) {
      var d := m.state[chat];
      d.role := RoleVolunteer;
      var kb := NewCheckboxKeyboard(m.categories);
      var v := new Volunteer(kb);
      d.volunteer := v;
      InitialSelection(m.categories);
      var layout := CategoryKeyboardLayout(kb, "");
      sent := [Outgoing(chat, Raw(m.tr(UserRoleRequestKey)), ReplyKeyboard(layout))];
      if !sendOk {
        return true, sent;
      }
      d.next := VolunteerCategoryCheckbox;
      return false, sent;
    }
    sent := [Outgoing(chat, Raw(m.tr(ErrorChooseOptionKey)), NoMarkup)];
    return !sendOk, sent;
  }

  /** `handleVolunteerCategoryCheckbox`: "next" with a selection returns at once and
      changes nothing (the next step is not written yet in this snapshot); any other text
      toggles the first matching box, and the reply lists the selection with the "next"
      row only when the selection is non-empty. */
  method HandleVolunteerCategoryCheckbox(m: MessageHandler, u: Update, sendOk: bool)
    returns (err: bool, sent: seq<Outgoing>)
    requires u.message.Some? && ChatID(u).Some? && ChatID(u).value in m.state
    requires m.state[ChatID(u).value].Valid() && m.state[ChatID(u).value].volunteer != null
    modifies m.state[ChatID(u).value].volunteer, m.state[ChatID(u).value].volunteer.categoryKeyboard
    ensures var chat := ChatID(u).value;
            var v := m.state[chat].volunteer;
            var text := u.message.value.text;
            var nextLabel := m.tr(NextButtonKey);
            && m.state[chat].Valid()
            && (text == nextLabel && |old(v.categories)| > 0 ==>
                  && v.categories == old(v.categories) && v.categoryKeyboard[..] == old(v.categoryKeyboard[..])
                  && sent == [] && !err)
            && (!(text == nextLabel && |old(v.categories)| > 0) ==>
                  var r := Toggle(old(v.categoryKeyboard[..]), old(v.categories), text);
                  && v.categoryKeyboard[..] == r.boxes && v.categories == r.cats
                  && sent == [if !r.ok then Outgoing(chat, Raw(m.tr(ErrorChooseOptionKey)), NoMarkup)
                              else Outgoing(chat,
                                            if |r.cats| != 0 then ChosenCategories(Session.Texts(r.cats)) else Raw(m.tr(ErrorChooseOptionKey)),
                                            ReplyKeyboard(Layout(r.boxes, if |r.cats| > 0 then nextLabel else "")))]
                  && err == !sendOk)
  {
    var chat := ChatID(u).value;
    var v := m.state[chat].volunteer;
    var text := u.message.value.text;
    var nextBtnText := m.tr(NextButtonKey);
    if text == nextBtnText && |v.categories| > 0 {
      return false, [];
    }
    ToggleKeepsInv(v.categoryKeyboard[..], v.categories, text);
    var uid, ok, cats, panicked := InvertCategoryButton(v.categoryKeyboard, v.categories, text);
    v.categories := cats;
    if !ok {
      sent := [Outgoing(chat, Raw(m.tr(ErrorChooseOptionKey)), NoMarkup)];
      return !sendOk, sent;
    }
    var body := if |v.categories| != 0 then ChosenCategories(Session.Texts(v.categories)) else Raw(m.tr(ErrorChooseOptionKey));
    var nextbtn := if |v.categories| > 0 then nextBtnText else "";
    var layout := CategoryKeyboardLayout(v.categoryKeyboard, nextbtn);
    sent := [Outgoing(chat, body, ReplyKeyboard(layout))];
    return !sendOk, sent;
  }

  /** Where `Handle` sends an update. */
  datatype Route = StartCommand | UnknownCommand | NoDialog | Dispatched(step: Step)

  /** The route `Handle` takes, from the update and whether the chat has a dialog. */
  function RouteOf(u: Update, hasDialog: bool, step: Step): (r: Route)
    ensures u.message.Some? && u.message.value.command.Some? ==>
              (r == StartCommand <==> u.message.value.command.value == CmdStart) &&
              (r == UnknownCommand <==> u.message.value.command.value != CmdStart)
    ensures !(u.message.Some? && u.message.value.command.Some?) ==>
              (r == NoDialog <==> !hasDialog) && (r == Dispatched(step) <==> hasDialog)
  {
    if u.message.Some? && u.message.value.command.Some? then
      if u.message.value.command.value == CmdStart then StartCommand else UnknownCommand
    else if !hasDialog then NoDialog
    else Dispatched(step)
  }

  /** `MessageHandler.Handle`: /start and a chat without a dialog get the role request;
      another command is answered "Error" (its send result ignored) and changes nothing;
      otherwise the dialog's step handler runs. Reaching a step handler with a callback
      update (no message) dereferences a nil message and panics. */
  method HandleUpdate(m: MessageHandler, u: Update, sendOk: bool, seekerErr: bool)
    returns (route: Route, err: bool, sent: seq<Outgoing>, panicked: bool)
    requires m.Valid() && ChatID(u).Some?
    requires ChatID(u).value in m.state ==> m.state[ChatID(u).value].Valid()
    modifies m.Footprint(ChatID(u).value)
    ensures var chat := ChatID(u).value;
            var hasDialog := chat in old(m.state);
            && route == RouteOf(u, hasDialog, if hasDialog then old(m.state[chat].next) else RoleReply)
            && (panicked <==> route.Dispatched? && u.message.None?)
            && (route == UnknownCommand ==>
                  m.state == old(m.state) && sent == [Outgoing(chat, Raw("Error"), NoMarkup)] && !err &&
                  (hasDialog ==> unchanged(old(m.state[chat]))))
            && (route == StartCommand || route == NoDialog ==>
                  && sent == [Outgoing(chat, Raw(m.tr(UserRoleRequestKey)), RoleKeyboard(m))] && err == !sendOk
                  && (!sendOk ==> m.state == old(m.state))
                  && (sendOk ==> chat in m.state && fresh(m.state[chat]) &&
                                 m.state == old(m.state)[chat := m.state[chat]] && m.state[chat].next == RoleReply))
            && (route.Dispatched? ==> m.state == old(m.state))
  {
    var chat := ChatID(u).value;
    var hasDialog := chat in m.state;
    route := RouteOf(u, hasDialog, if hasDialog then m.state[chat].next else RoleReply);
    panicked := false;
    match route
    case StartCommand =>
      err, sent := UserRoleRequest(m, u, sendOk);
    case UnknownCommand =>
      sent := [Outgoing(chat, Raw("Error"), NoMarkup)];
      err := false;
    case NoDialog =>
      err, sent := UserRoleRequest(m, u, sendOk);
    case Dispatched(step) =>
      if u.message.None? {
        return route, false, [], true;
      }
      if step == RoleReply {
        err, sent := HandleUserRoleReply(m, u, sendOk, seekerErr);
      } else {
        err, sent := HandleVolunteerCategoryCheckbox(m, u, sendOk);
      }
  }
}
