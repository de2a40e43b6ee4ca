/** The client object `KBank`: credentials, the login and logout
    handshakes, the account cache, and the two statement downloads.

    The network is replaced by the replies the server gives: `replies[k]`
    answers the k-th request a call sends. A call that sends a request when
    no reply is left ends as the transport would, by throwing
    (`NetworkError`). Each call returns the requests it sent, in order. */
module Bank {
  import opened JsValues
  import opened Text
  import opened Extraction
  import opened Http
  import opened Statement

  /** A reply as its call site sees it: the status, the matches of the
      call site's pattern in the body (document order), and the rows the
      CSV decoder makes of the body. */
  datatype Response = Response(status: int, matches: seq<Match>, rows: seq<Record>)

  /** A date as `getDate()`, `getMonth()` (zero-based) and `getFullYear()`
      report it. */
  datatype Date = Date(day: int, month0: int, year: int)

  /** The k-th request got a reply, with status `code`. */
  predicate Passes(replies: seq<Response>, k: nat, code: int) {
    k < |replies| && replies[k].status == code
  }

  /** A truthy string argument. */
  predicate IsNonEmptyString(a: Arg) {
    a.Str? && |a.s| > 0
  }

  function LoginForm(username: string, password: string): Fields {
    [ ("tokenId", Text("0")), ("cmd", Text("authenticate")),
      ("userName", Text(username)), ("password", Text(password)), ("locale", Text("en")) ]
  }

  /** The query of the second site's logout request. */
  function LogoutQuery(token: Option<string>): Fields {
    [("action", Text("retailuser")), ("txtParam", ValueOf(token))]
  }

  /** The logout query as text: the token goes last, and a missing capture
      is sent as an empty value. */
  lemma LogoutQueryText(token: Option<string>)
    ensures EncodeQuery(LogoutQuery(token)) == "action=retailuser&txtParam=" + (if token.Some? then token.value else "")
  {
  }

  function AccountsRequest(): Request {
    Request(EbankUrl + "accountinfo/AccountStatementInquiry.do", Get, None, false)
  }

  function TodayRequest(id: FormValue, action: string): Request {
    Request(EbankUrl + "cashmanagement/TodayAccountStatementInquiry.do", Post,
            Some([("acctId", id), ("action", Text(action))]), false)
  }

  /** The `selAccountNo` field of a statement request. */
  function AccountField(num: string): string {
    "|" + CleanNumber(num) + "||||||"
  }

  /** For a canonical account number the field is a bar, the ten digits
      and six bars, and the number can be read back from it. */
  lemma AccountFieldShape(num: string)
    requires IsCanonicalNumber(num)
    ensures var f := AccountField(num);
      && |f| == 17 && f[0] == '|' && f[11..] == "||||||"
      && AllDigits(f[1..11]) && Canonical(f[1..11]) == num
  {
    CanonicalOfClean(num);
    var f := AccountField(num);
    assert f[1..11] == CleanNumber(num);
  }

  /** Different canonical account numbers give different fields. */
  lemma AccountFieldInjective(a: string, b: string)
    requires IsCanonicalNumber(a) && IsCanonicalNumber(b)
    requires AccountField(a) == AccountField(b)
    ensures a == b
  {
    AccountFieldShape(a);
    AccountFieldShape(b);
  }

  /** The form of a date-range statement download. */
  function StatementForm(num: string, start: Date, end: Date): Fields {
    [ ("action", Text("sa_download")),
      ("selAccountNo", Text(AccountField(num))),
      ("selDayFrom", Number(start.day)),
      ("selMonthFrom", Number(start.month0 + 1)),
      ("selYearFrom", Number(start.year)),
      ("selDayTo", Number(end.day)),
      ("selMonthTo", Number(end.month0 + 1)),
      ("selYearTo", Number(end.year)),
      ("period", Text("3")) ]
  }

  /** The months sent are the calendar months 1 to 12 of the two dates. */
  lemma StatementFormMonths(num: string, start: Date, end: Date)
    requires 0 <= start.month0 < 12 && 0 <= end.month0 < 12
    ensures var f := StatementForm(num, start, end);
      && f[3].1.Number? && 1 <= f[3].1.n <= 12 && f[3].1.n - 1 == start.month0
      && f[6].1.Number? && 1 <= f[6].1.n <= 12 && f[6].1.n - 1 == end.month0
  {
  }

  /** `account.number === num`: a string matches an equal number, and
      `undefined` matches an account without one; no other value matches
      the strings (or `undefined`) an account record holds. */
  predicate HasNumber(account: Record, num: Arg) {
    match num
    case Str(s) => Lookup(account, "number") == Some(s)
    case Undef => Lookup(account, "number").None?
    case NonString => false
  }

  /** `accounts.find(x => x.number === num)`, as the index of the first
      account whose number is `num`. */
  function FindAccount(accounts: seq<Record>, num: Arg): (r: Option<nat>)
    ensures r.Some? ==> r.value < |accounts| && HasNumber(accounts[r.value], num)
    ensures r.Some? ==> forall j :: 0 <= j < r.value ==> !HasNumber(accounts[j], num)
    ensures r.None? ==> forall j :: 0 <= j < |accounts| ==> !HasNumber(accounts[j], num)
  {
    if accounts == [] then None
    else if HasNumber(accounts[0], num) then Some(0)
    else
      match FindAccount(accounts[1..], num)
      case None => None
      case Some(i) => Some(i + 1)
  }

  class KBank {
    var username: string
    var password: string
    /** The account cache `_accounts`: unset until a listing succeeds, then
        replaced by each later successful listing. */
    var accounts: Option<seq<Record>>

    constructor (username: string, password: string)
      requires |username| > 0 && |password| > 0
      ensures this.username == username && this.password == password && accounts == None
    {
      this.username := username;
      this.password := password;
      accounts := None;
    }

    /** `new KBank(username, password)`: both must be non-empty strings,
        otherwise the constructor throws a RangeError. */
    static method Create(username: Arg, password: Arg) returns (r: Completion<KBank>)
      ensures r.Returned? <==> IsNonEmptyString(username) && IsNonEmptyString(password)
      ensures r.Threw? ==> r.error == RangeError
      ensures r.Returned? ==>
        && fresh(r.value) && |r.value.username| > 0 && |r.value.password| > 0
        && r.value.username == username.s && r.value.password == password.s
        && r.value.accounts == None
    {
      if !(IsNonEmptyString(username) && IsNonEmptyString(password)) {
        r := Threw(RangeError);
        return;
      }
      var bank := new KBank(username.s, password.s);
      r := Returned(bank);
    }

    /** `setCredential`: both arguments must be non-empty strings; otherwise
        a RangeError is thrown before anything is assigned. */
    method SetCredential(username: Arg, password: Arg) returns (r: Completion<()>)
      modifies this`username, this`password
      ensures r.Returned? <==> IsNonEmptyString(username) && IsNonEmptyString(password)
      ensures r.Threw? ==>
        r.error == RangeError && this.username == old(this.username) && this.password == old(this.password)
      ensures r.Returned? ==> this.username == username.s && this.password == password.s
      ensures old(|this.username| > 0 && |this.password| > 0) || r.Returned? ==>
        |this.username| > 0 && |this.password| > 0
    {
      var failed := !(IsNonEmptyString(username) && IsNonEmptyString(password));
      if failed {
        r := Threw(RangeError);
        return;
      }
      this.username := username.s;
      this.password := password.s;
      r := Returned(());
    }

    /** `login`: post the credentials (302 expected), fetch the bridge page
        (200 expected) and take its token, then post the token to the second
        site (302 expected). A wrong status ends the call with false and no
        further request; a bridge page without a token throws a TypeError. */
    method Login(replies: seq<Response>) returns (out: Completion<bool>, sent: seq<Request>)
      ensures 1 <= |sent| <= 3
      ensures sent[0] == Request(OnlineUrl + "login.do", Post, Some(LoginForm(username, password)), false)
      ensures |sent| >= 2 <==> Passes(replies, 0, 302)
      ensures |sent| >= 2 ==> sent[1] == Request(OnlineUrl + "ib/redirectToIB.jsp", Get, None, false)
      ensures |sent| == 3 <==>
        Passes(replies, 0, 302) && Passes(replies, 1, 200) && Token(replies[1].matches).Returned?
      ensures |sent| == 3 ==>
        sent[2] == Request(EbankUrl + "security/Welcome.do", Post,
                           Some([("txtParam", ValueOf(Token(replies[1].matches).value))]), false)
      ensures out == Threw(NetworkError) <==> |replies| < |sent|
      ensures out == Threw(TypeError) <==>
        Passes(replies, 0, 302) && Passes(replies, 1, 200) && Token(replies[1].matches).Threw?
      ensures out == Returned(true) <==> |sent| == 3 && Passes(replies, 2, 302)
      ensures out.Threw? ==> out.error != RangeError
    {
      var formdata := LoginForm(username, password);
      var req := Submit(OnlineUrl + "login.do", None, Some(formdata));
      sent := [req];
      if |replies| < |sent| {
        out := Threw(NetworkError);
        return;
      }
      if replies[0].status != 302 {
        out := Returned(false);
        return;
      }
      req := Submit(OnlineUrl + "ib/redirectToIB.jsp", None, None);
      sent := sent + [req];
      if |replies| < |sent| {
        out := Threw(NetworkError);
        return;
      }
      if replies[1].status != 200 {
        out := Returned(false);
        return;
      }
      var token := Token(replies[1].matches);
      if token.Threw? {
        out := Threw(token.error);
        return;
      }
      formdata := [("txtParam", ValueOf(token.value))];
      req := Submit(EbankUrl + "security/Welcome.do", None, Some(formdata));
      sent := sent + [req];
      if |replies| < |sent| {
        out := Threw(NetworkError);
        return;
      }
      out := Returned(replies[2].status == 302);
    }

    /** `logout`: request the first site's logout page with `cmd=success`
        (200 expected) and take its token, then send the token to the second
        site's logout address (302 expected). A wrong first status ends the
        call with false and no second request; a page without a token throws
        a TypeError. */
    method Logout(replies: seq<Response>) returns (out: Completion<bool>, sent: seq<Request>)
      ensures 1 <= |sent| <= 2
      ensures sent[0] == Request(OnlineUrl + "logout.do?cmd=success", Get, None, false)
      ensures |sent| == 2 <==> Passes(replies, 0, 200) && Token(replies[0].matches).Returned?
      ensures |sent| == 2 ==>
        sent[1] == Request(EbankUrl + "security/Logout.do" + "?" + EncodeQuery(LogoutQuery(Token(replies[0].matches).value)),
                           Get, None, false)
      ensures out == Threw(NetworkError) <==> |replies| < |sent|
      ensures out == Threw(TypeError) <==> Passes(replies, 0, 200) && Token(replies[0].matches).Threw?
      ensures out == Returned(true) <==> |sent| == 2 && Passes(replies, 1, 302)
      ensures out.Threw? ==> out.error != RangeError
    {
      var querydata := [("cmd", Text("success"))];
      assert EncodeQuery(querydata) == "cmd=success";
      var req := Submit(OnlineUrl + "logout.do", Some(querydata), None);
      assert req.url == OnlineUrl + "logout.do?cmd=success";
      sent := [req];
      if |replies| < |sent| {
        out := Threw(NetworkError);
        return;
      }
      if replies[0].status != 200 {
        out := Returned(false);
        return;
      }
      var token := Token(replies[0].matches);
      if token.Threw? {
        out := Threw(token.error);
        return;
      }
      querydata := LogoutQuery(token.value);
      req := Submit(EbankUrl + "security/Logout.do", Some(querydata), None);
      sent := sent + [req];
      if |replies| < |sent| {
        out := Threw(NetworkError);
        return;
      }
      out := Returned(replies[1].status == 302);
    }

    /** `getAccounts`: fetch the statement inquiry page; on 200 the scraped
        accounts replace the cache and are returned; on any other status the
        call returns false (None) and the cache is left as it was. */
    method GetAccounts(replies: seq<Response>) returns (out: Completion<Option<seq<Record>>>, sent: seq<Request>)
      modifies this`accounts
      ensures sent == [AccountsRequest()]
      ensures replies == [] ==> out == Threw(NetworkError) && accounts == old(accounts)
      ensures Passes(replies, 0, 200) ==>
        && out == Returned(Some(ExtractAll(replies[0].matches)))
        && accounts == Some(ExtractAll(replies[0].matches))
      ensures replies != [] && !Passes(replies, 0, 200) ==> out == Returned(None) && accounts == old(accounts)
    {
      var req := Submit(EbankUrl + "accountinfo/AccountStatementInquiry.do", None, None);
      sent := [req];
      if |replies| < |sent| {
        out := Threw(NetworkError);
        return;
      }
      if replies[0].status != 200 {
        out := Returned(None);
        return;
      }
      accounts := Some(ExtractAll(replies[0].matches));
      out := Returned(accounts);
    }

    /** `getStatement(num, start, end)`: post the download form; a status
        other than 200 gives no rows, a 200 gives the export's complete rows
        without their placeholder column. A `num` that is not a string has
        no `replace` method, so building the form throws a TypeError before
        anything is sent. */
    method GetStatement(num: Arg, start: Date, end: Date, replies: seq<Response>)
      returns (out: Completion<seq<Record>>, sent: seq<Request>)
      ensures !num.Str? ==> out == Threw(TypeError) && sent == []
      ensures num.Str? ==>
        sent == [Request(EbankUrl + "accountinfo/AccountStatementInquiry.do", Post,
                         Some(StatementForm(num.s, start, end)), false)]
      ensures out == Threw(NetworkError) <==> num.Str? && replies == []
      ensures num.Str? && replies != [] && replies[0].status != 200 ==> out == Returned([])
      ensures num.Str? && Passes(replies, 0, 200) ==> out == Returned(Parse(replies[0].rows, |StatementColumns|))
    {
      if !num.Str? {
        out := Threw(TypeError);
        sent := [];
        return;
      }
      var formdata := StatementForm(num.s, start, end);
      var req := Submit(EbankUrl + "accountinfo/AccountStatementInquiry.do", None, Some(formdata));
      sent := [req];
      if |replies| < |sent| {
        out := Threw(NetworkError);
        return;
      }
      if replies[0].status != 200 {
        out := Returned([]);
        return;
      }
      var rows := ParseStatement(replies[0].rows, |StatementColumns|);
      out := Returned(rows);
    }

    /** `getTodayStatement(num)`: fill the account cache if it is unset,
        look the account up by number, then request the detail page and the
        download (200 expected from each). An unknown number gives no rows
        and no further request. A failed listing leaves the cache unset, and
        the lookup then throws a TypeError. */
    method GetTodayStatement(num: Arg, replies: seq<Response>)
      returns (out: Completion<seq<Record>>, sent: seq<Request>)
      modifies this`accounts
      ensures old(accounts).Some? ==> accounts == old(accounts)
      ensures old(accounts).None? ==> |sent| >= 1 && sent[0] == AccountsRequest()
      ensures old(accounts).None? && Passes(replies, 0, 200) ==>
        accounts == Some(ExtractAll(replies[0].matches))
      ensures old(accounts).None? && !Passes(replies, 0, 200) ==>
        && accounts == None && sent == [AccountsRequest()]
        && out == Threw(if replies == [] then NetworkError else TypeError)
      ensures accounts.Some? && FindAccount(accounts.value, num).None? ==>
        out == Returned([]) && |sent| == (if old(accounts).None? then 1 else 0)
      ensures accounts.Some? && FindAccount(accounts.value, num).Some? ==>
        var k := if old(accounts).None? then 1 else 0;
        var id := ValueOf(Lookup(accounts.value[FindAccount(accounts.value, num).value], "id"));
        && k + 1 <= |sent| <= k + 2
        && sent[k] == TodayRequest(id, "detail")
        && (|sent| == k + 2 <==> Passes(replies, k, 200))
        && (|sent| == k + 2 ==> sent[k + 1] == TodayRequest(id, "download"))
        && (out == Threw(NetworkError) <==> |replies| < |sent|)
        && (Passes(replies, k, 200) && Passes(replies, k + 1, 200) ==>
              out == Returned(Parse(replies[k + 1].rows, |TodayColumns|)))
        && (|replies| >= |sent| && !(Passes(replies, k, 200) && Passes(replies, k + 1, 200)) ==>
              out == Returned([]))
    {
      sent := [];
      if accounts.None? {
        var listed;
        listed, sent := GetAccounts(replies);
        if listed.Threw? {
          out := Threw(listed.error);
          return;
        }
      }
      if accounts.None? {
        out := Threw(TypeError);
        return;
      }
      var found := FindAccount(accounts.value, num);
      if found.None? {
        out := Returned([]);
        return;
      }
      var id := ValueOf(Lookup(accounts.value[found.value], "id"));
      var fetched;
      out, fetched := DownloadToday(id, replies, |sent|);
      sent := sent + fetched;
    }

    /** The two requests of `getTodayStatement` once the account is known,
        answered from `replies[k..]`: the detail page, then (after a 200)
        the download, whose rows (after a 200) pass through the filter. */
    static method DownloadToday(id: FormValue, replies: seq<Response>, k: nat)
      returns (out: Completion<seq<Record>>, sent: seq<Request>)
      ensures 1 <= |sent| <= 2
      ensures sent[0] == TodayRequest(id, "detail")
      ensures |sent| == 2 <==> Passes(replies, k, 200)
      ensures |sent| == 2 ==> sent[1] == TodayRequest(id, "download")
      ensures out == Threw(NetworkError) <==> |replies| < k + |sent|
      ensures Passes(replies, k, 200) && Passes(replies, k + 1, 200) ==>
        out == Returned(Parse(replies[k + 1].rows, |TodayColumns|))
      ensures |replies| >= k + |sent| && !(Passes(replies, k, 200) && Passes(replies, k + 1, 200)) ==>
        out == Returned([])
    {
      var url := EbankUrl + "cashmanagement/TodayAccountStatementInquiry.do";
      var req := Submit(url, None, Some([("acctId", id), ("action", Text("detail"))]));
      sent := [req];
      if |replies| < k + 1 {
        out := Threw(NetworkError);
        return;
      }
      if replies[k].status != 200 {
        out := Returned([]);
        return;
      }
      req := Submit(url, None, Some([("acctId", id), ("action", Text("download"))]));
      sent := sent + [req];
      if |replies| < k + 2 {
        out := Threw(NetworkError);
        return;
      }
      if replies[k + 1].status != 200 {
        out := Returned([]);
        return;
      }
      var rows := ParseStatement(replies[k + 1].rows, |TodayColumns|);
      out := Returned(rows);
    }
  }
}
