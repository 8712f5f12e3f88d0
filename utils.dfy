/** The helpers every page shares: the notification banners and their timers, the admin
    navigation links, and the side navigation filled from the user's details. */
module Utils {
  import opened Common

  // ---- Notification banners ----

  /** The three callbacks a notification schedules. */
  datatype TimerAction = AddShow | RemoveShow | HideBanner

  /** A pending `setTimeout` callback and the time (ms) it is due. */
  datatype Timer = Timer(due: int, action: TimerAction)

  /** A banner element: its text, its `style.display`, whether it has the `show` class, the
      current time (ms) and the callbacks still pending. */
  datatype BannerState = BannerState(text: string, display: string, shown: bool, clock: int, timers: seq<Timer>)

  /** `setTimeout` treats a negative delay as zero. */
  function Delay(ms: int): nat
  {
    if ms < 0 then 0 else ms
  }

  /** successNotification / errorNotification on a present element: set the text, make the
      banner visible, schedule the `show` class after 10 ms and its removal after the timeout.
      Callbacks left by an earlier notification stay pending. */
  function Notified(st: BannerState, message: string, timeout: int): (r: BannerState)
    ensures r.text == message && r.display == "block" && r.shown == st.shown && r.clock == st.clock
    ensures |r.timers| == |st.timers| + 2 && r.timers[..|st.timers|] == st.timers
    ensures r.timers[|st.timers|..] == [Timer(st.clock + 10, AddShow), Timer(st.clock + Delay(timeout * 1000), RemoveShow)]
  {
    st.(text := message, display := "block",
        timers := st.timers + [Timer(st.clock + 10, AddShow), Timer(st.clock + Delay(timeout * 1000), RemoveShow)])
  }

  /** The index of the callback that runs next: the earliest due, the first scheduled on ties. */
  function Earliest(ts: seq<Timer>): (i: nat)
    requires ts != []
    ensures i < |ts|
    ensures forall j :: 0 <= j < |ts| ==> ts[i].due <= ts[j].due
    ensures forall j :: 0 <= j < i ==> ts[i].due < ts[j].due
    decreases |ts|
  {
    if |ts| == 1 then 0
    else
      var k := Earliest(ts[1..]) + 1;
      if ts[0].due <= ts[k].due then 0 else k
  }

  /** The list without its element at index `i`. */
  function RemoveAt<T>(s: seq<T>, i: nat): seq<T>
    requires i < |s|
  {
    s[..i] + s[i + 1..]
  }

  /** The event loop runs the next callback: time moves to its due time; removing `show`
      schedules the hiding of the banner 500 ms later. */
  function Step(st: BannerState): BannerState
    requires st.timers != []
  {
    var i := Earliest(st.timers);
    var t := st.timers[i];
    var rest := RemoveAt(st.timers, i);
    var now := if t.due < st.clock then st.clock else t.due;
    match t.action
    case AddShow => st.(shown := true, clock := now, timers := rest)
    case RemoveShow => st.(shown := false, clock := now, timers := rest + [Timer(now + 500, HideBanner)])
    case HideBanner => st.(display := "none", clock := now, timers := rest)
  }

  /** `n` turns of the event loop, stopping early when nothing is pending. */
  function Run(st: BannerState, n: nat): BannerState
    decreases n
  {
    if n == 0 || st.timers == [] then st else Run(Step(st), n - 1)
  }

  /** No pending callback is due before the current time. */
  ghost predicate NothingOverdue(st: BannerState)
  {
    forall k :: 0 <= k < |st.timers| ==> st.clock <= st.timers[k].due
  }

  /** Time never runs backwards: a step keeps every pending callback at or after the clock,
      and the clock does not go back. */
  lemma {:induction false} StepKeepsTime(st: BannerState)
    requires st.timers != [] && NothingOverdue(st)
    ensures NothingOverdue(Step(st)) && st.clock <= Step(st).clock
    ensures |Step(st).timers| == |st.timers| - (if st.timers[Earliest(st.timers)].action == RemoveShow then 0 else 1)
  {
    var i := Earliest(st.timers);
    var rest := RemoveAt(st.timers, i);
    forall k | 0 <= k < |rest|
      ensures st.timers[i].due <= rest[k].due
    {
      if k < i {
        assert rest[k] == st.timers[k];
      } else {
        assert rest[k] == st.timers[k + 1];
      }
    }
  }

  lemma NotifyKeepsTime(st: BannerState, message: string, timeout: int)
    requires NothingOverdue(st)
    ensures NothingOverdue(Notified(st, message, timeout))
  {
    var r := Notified(st, message, timeout);
    forall k | 0 <= k < |r.timers|
      ensures st.clock <= r.timers[k].due
    {
      if k < |st.timers| {
        assert r.timers[k] == r.timers[..|st.timers|][k];
      } else {
        assert r.timers[k] == r.timers[|st.timers|..][k - |st.timers|];
      }
    }
  }

  /** The life of one notification on an idle banner: after 10 ms it gains `show`, after the
      timeout it loses it, and 500 ms later the banner is hidden with nothing left pending. */
  lemma {:induction false} NotificationTimeline(st: BannerState, message: string, timeout: int)
    requires st.timers == [] && timeout >= 1
    ensures var s1 := Step(Notified(st, message, timeout));
      s1.text == message && s1.display == "block" && s1.shown && s1.clock == st.clock + 10
    ensures var s2 := Run(Notified(st, message, timeout), 2);
      s2.display == "block" && !s2.shown && s2.clock == st.clock + timeout * 1000
    ensures var s3 := Run(Notified(st, message, timeout), 3);
      s3.text == message && s3.display == "none" && !s3.shown &&
      s3.clock == st.clock + timeout * 1000 + 500 && s3.timers == []
  {
    var s0 := Notified(st, message, timeout);
    var add := Timer(st.clock + 10, AddShow);
    var remove := Timer(st.clock + timeout * 1000, RemoveShow);
    assert s0.timers == [add, remove];
    assert Earliest(s0.timers) == 0;
    var s1 := Step(s0);
    assert s1.timers == [remove];
    var s2 := Step(s1);
    assert s2.timers == [Timer(st.clock + timeout * 1000 + 500, HideBanner)];
    var s3 := Step(s2);
    assert Run(s0, 3) == Run(s1, 2) == Run(s2, 1) == Run(s3, 0) == s3;
  }

  /** A second notification does not reset the first one's timers: with a 5 s message shown
      at time 0 and another 5 s message at 1000 ms, the second loses `show` at 5000 ms, not
      at 6000 ms. */
  lemma OverlappingNoticeEndsEarly(st: BannerState)
    requires st.timers == [] && st.clock == 0
    ensures var s := Run(Notified(Run(Notified(st, "first", 5), 1).(clock := 1000), "second", 5), 2);
      s.text == "second" && !s.shown && s.clock == 5000
  {
    var s0 := Notified(st, "first", 5);
    assert Earliest(s0.timers) == 0;
    var s1 := Run(s0, 1);
    assert s1.timers == [Timer(5000, RemoveShow)];
    var s2 := Notified(s1.(clock := 1000), "second", 5);
    assert s2.timers == [Timer(5000, RemoveShow), Timer(1010, AddShow), Timer(6000, RemoveShow)];
    assert Earliest(s2.timers) == 1;
    var s3 := Step(s2);
    assert s3.timers == [Timer(5000, RemoveShow), Timer(6000, RemoveShow)];
    assert Earliest(s3.timers) == 0;
    var s4 := Step(s3);
    assert Run(s2, 2) == Run(s3, 1) == Run(s4, 0) == s4;
  }

  /** One of the two banner elements (`#successNotification`, `#errorNotification`). When the
      page lacks it, a notification only logs to the console. */
  class Banner {
    const present: bool
    var text: string
    var display: string
    var shown: bool
    var clock: int
    var timers: seq<Timer>

    constructor (present: bool, clock: int)
      ensures this.present == present && State() == BannerState("", "none", false, clock, [])
    {
      this.present := present;
      text := "";
      display := "none";
      shown := false;
      this.clock := clock;
      timers := [];
    }

    ghost function State(): BannerState
      reads this
    {
      BannerState(text, display, shown, clock, timers)
    }

    /** successNotification(message, timeout) / errorNotification(message, timeout). */
    method Notify(message: string, timeout: int)
      modifies this
      ensures present ==> State() == Notified(old(State()), message, timeout)
      ensures !present ==> State() == old(State())
    {
      if present {
        text := message;
        display := "block";
        timers := timers + [Timer(clock + 10, AddShow), Timer(clock + Delay(timeout * 1000), RemoveShow)];
      }
    }

    /** The event loop runs the next pending callback. */
    method Tick()
      requires timers != []
      modifies this
      ensures State() == Step(old(State()))
    {
      var i := Earliest(timers);
      var t := timers[i];
      timers := RemoveAt(timers, i);
      if t.due > clock {
        clock := t.due;
      }
      match t.action {
        case AddShow => shown := true;
        case RemoveShow =>
          shown := false;
          timers := timers + [Timer(clock + 500, HideBanner)];
        case HideBanner => display := "none";
      }
    }
  }

  // ---- Admin navigation ----

  /** The links showNavAdminPages writes into `#nav_admin_pages`. */
  const AdminLinks: seq<string> := ["reports.html", "#", "bhw.html", "admin.html"]

  /** The `#nav_admin_pages` container; `present` is false when the page has none. */
  class NavAdminPages {
    const present: bool
    var links: seq<string>

    constructor (present: bool)
      ensures this.present == present && links == []
    {
      this.present := present;
      links := [];
    }

    /** showNavAdminPages: only the exact role "admin" fills the container. Writing into a
        missing container throws, which `threw` reports. */
    method Show(role: Option<string>) returns (threw: bool)
      modifies this
      ensures threw <==> role == Some("admin") && !present
      ensures links == (if role == Some("admin") && present then AdminLinks else old(links))
    {
      threw := false;
      if role == Some("admin") {
        if present {
          links := AdminLinks;
        } else {
          threw := true;
        }
      }
    }
  }

  // ---- User details and the side navigation ----

  /** The user-details body fields the dashboard reads. */
  datatype UserDetails = UserDetails(
    message: Option<string>, barangay: Option<string>,
    firstname: Option<string>, lastname: Option<string>, profilePicture: Option<string>)

  /** What the side navigation shows; `None` for an element the page does not have. */
  datatype SideNavView = SideNavView(barangay: Option<string>, userName: Option<string>, picture: Option<string>)

  /** updateSideNav: each element present on the page is overwritten when the fields it needs
      are truthy; a null body changes nothing. */
  function UpdatedView(v: SideNavView, user: Option<UserDetails>): (r: SideNavView)
    ensures r.barangay.Some? == v.barangay.Some? && r.userName.Some? == v.userName.Some? && r.picture.Some? == v.picture.Some?
    ensures user.None? ==> r == v
  {
    if user.None? then v
    else
      var u := user.value;
      SideNavView(
        if v.barangay.Some? && Present(u.barangay) then Some("Brgy. " + u.barangay.value) else v.barangay,
        if v.userName.Some? && Present(u.firstname) && Present(u.lastname)
        then Some(u.firstname.value + " " + u.lastname.value) else v.userName,
        if v.picture.Some? && Present(u.profilePicture) then u.profilePicture else v.picture)
  }

  /** The displayed name changes exactly when the element exists and both names are set, and
      then it reads "first last". */
  lemma UserNameShownWhenBothNames(v: SideNavView, u: UserDetails)
    ensures UpdatedView(v, Some(u)).userName != v.userName ==> Present(u.firstname) && Present(u.lastname)
    ensures v.userName.Some? && Present(u.firstname) && Present(u.lastname) ==>
      UpdatedView(v, Some(u)).userName == Some(u.firstname.value + " " + u.lastname.value)
  {
  }

  /** The barangay element shows "Brgy. <barangay>" exactly when it exists and the barangay is
      set; otherwise it keeps what it showed. */
  lemma BarangayShownWhenPresent(v: SideNavView, u: UserDetails)
    ensures v.barangay.Some? && Present(u.barangay) ==>
      UpdatedView(v, Some(u)).barangay == Some("Brgy. " + u.barangay.value)
    ensures !(v.barangay.Some? && Present(u.barangay)) ==> UpdatedView(v, Some(u)).barangay == v.barangay
  {
  }

  /** The side-nav image takes `profile_picture` exactly when it exists and the picture is set;
      otherwise it keeps its source. */
  lemma PictureShownWhenPresent(v: SideNavView, u: UserDetails)
    ensures v.picture.Some? && Present(u.profilePicture) ==> UpdatedView(v, Some(u)).picture == u.profilePicture
    ensures !(v.picture.Some? && Present(u.profilePicture)) ==> UpdatedView(v, Some(u)).picture == v.picture
  {
  }

  /** Applying the same details twice shows what applying them once does. */
  lemma UpdateIdempotent(v: SideNavView, user: Option<UserDetails>)
    ensures UpdatedView(UpdatedView(v, user), user) == UpdatedView(v, user)
  {
  }

  /** What fetchUserDetails ends in once the request has answered. */
  datatype DetailsOutcome = Refresh(user: Option<UserDetails>) | Report(notice: Notice)

  const NotAuthenticated := "User is not authenticated."
  const DetailsError := "An error occurred while fetching user details."

  /** The `Authorization` header fetchUserDetails sends, or `None` when there is no token and
      no request is made. */
  function DetailsAuthorization(token: Option<string>): (h: Option<string>)
    ensures h.Some? <==> Present(token)
    ensures h.Some? ==> h.value == "Bearer " + token.value
  {
    if Present(token) then Some("Bearer " + token.value) else None
  }

  /** The answer to `GET /api/user-details`: an ok body refreshes the side navigation, another
      status shows the body's message for 10 s, and a failure (including reading `message` of
      a null body) shows the generic error for 10 s. */
  function DetailsResult(response: Response<Option<UserDetails>>): (o: DetailsOutcome)
    ensures o.Refresh? <==> response.Response? && Ok(response.status) && response.body.Parsed?
    ensures o.Report? ==> o.notice.Failure? && o.notice.seconds == 10
    ensures o.Report? && o.notice.message != DetailsError ==>
      response.Response? && !Ok(response.status) && response.body.Parsed? && response.body.value.Some?
    ensures response.Response? && !Ok(response.status) && response.body.Parsed? && response.body.value.Some? ==>
      o == Report(Failure(DomText(response.body.value.value.message), 10))
    ensures (response.NetworkFailure? || response.body.Unparsable? ||
             (!Ok(response.status) && response.body.value.None?)) ==>
      o == Report(Failure(DetailsError, 10))
  {
    match response
    case NetworkFailure(_) => Report(Failure(DetailsError, 10))
    case Response(status, body) =>
      match body
      case Unparsable(_) => Report(Failure(DetailsError, 10))
      case Parsed(user) =>
        if Ok(status) then Refresh(user)
        else if user.None? then Report(Failure(DetailsError, 10))
        else Report(Failure(DomText(user.value.message), 10))
  }

  /** The side navigation of a page. */
  class SideNav {
    var barangay: Option<string>
    var userName: Option<string>
    var picture: Option<string>

    constructor (v: SideNavView)
      ensures View() == v
    {
      barangay := v.barangay;
      userName := v.userName;
      picture := v.picture;
    }

    ghost function View(): SideNavView
      reads this
    {
      SideNavView(barangay, userName, picture)
    }

    /** updateSideNav(userData). */
    method Update(user: Option<UserDetails>)
      modifies this
      ensures View() == UpdatedView(old(View()), user)
    {
      if user.Some? {
        var u := user.value;
        if barangay.Some? && Present(u.barangay) {
          barangay := Some("Brgy. " + u.barangay.value);
        }
        if userName.Some? && Present(u.firstname) && Present(u.lastname) {
          userName := Some(u.firstname.value + " " + u.lastname.value);
        }
        if picture.Some? && Present(u.profilePicture) {
          picture := u.profilePicture;
        }
      }
    }

    /** fetchUserDetails: without a token report it and send nothing; otherwise send the
        request and act on its answer. Returns the header sent and the notice shown. */
    method FetchUserDetails(token: Option<string>, response: Response<Option<UserDetails>>)
      returns (authorization: Option<string>, notice: Option<Notice>)
      modifies this
      ensures authorization == DetailsAuthorization(token)
      ensures !Present(token) ==> notice == Some(Failure(NotAuthenticated, DefaultSeconds)) && View() == old(View())
      ensures Present(token) && DetailsResult(response).Refresh? ==>
        notice == None && View() == UpdatedView(old(View()), DetailsResult(response).user)
      ensures Present(token) && DetailsResult(response).Report? ==>
        notice == Some(DetailsResult(response).notice) && View() == old(View())
    {
      authorization := DetailsAuthorization(token);
      if authorization.None? {
        notice := Some(Failure(NotAuthenticated, DefaultSeconds));
        return;
      }
      var outcome := DetailsResult(response);
      if outcome.Refresh? {
        Update(outcome.user);
        notice := None;
      } else {
        notice := Some(outcome.notice);
      }
    }
  }
}
