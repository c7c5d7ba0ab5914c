/** The user centre: logging in, the order list with its line amounts and
    page links, and adding a delivery address. */
module Users {
  import opened Common
  import opened Store
  import opened Paging

  /** A form field that is present and not empty (Python's truthiness of the
      value request.POST.get returns). */
  predicate Given(v: Option<string>)
  {
    v.Some? && v.value != ""
  }

  // ---------------------------------------------------------------------------
  // Login
  // ---------------------------------------------------------------------------

  /** How long the remembered user name cookie lives: one day, in seconds. */
  const RememberSeconds := 24 * 3600

  /** What the response does with the `username` cookie. */
  datatype Cookie = SetUsername(name: string, maxAge: nat) | DeleteUsername

  /** The answers of LoginView.post. */
  datatype LoginReply =
    | MissingCredentials
    | WrongCredentials
    | NotActivated
    | LoggedIn(next: string, cookie: Cookie)

  /** LoginView.post. `account` is what authentication returns: None when the
      name and password do not match, otherwise whether the account is
      active. `next` is the `next` query parameter and `index` the address of
      the index page. */
  function LoginOf(username: Option<string>, password: Option<string>, account: Option<bool>,
                   next: Option<string>, index: string, remember: Option<string>): (r: LoginReply)
    ensures r.LoggedIn? <==> Given(username) && Given(password) && account == Some(true)
    ensures r == MissingCredentials <==> !Given(username) || !Given(password)
    ensures r == NotActivated <==> Given(username) && Given(password) && account == Some(false)
    ensures r.LoggedIn? ==> r.next == (if next.Some? then next.value else index)
    ensures r.LoggedIn? ==> (r.cookie.SetUsername? <==> remember == Some("on"))
    ensures r.LoggedIn? && r.cookie.SetUsername? ==> r.cookie == SetUsername(username.value, 86400)
  {
    if !Given(username) || !Given(password) then MissingCredentials
    else if account.None? then WrongCredentials
    else if !account.value then NotActivated
    else
      var target := if next.Some? then next.value else index;
      LoggedIn(target, if remember == Some("on") then SetUsername(username.value, RememberSeconds) else DeleteUsername)
  }

  /** An inactive account is never logged in, whatever the rest of the form. */
  lemma InactiveNeverLogsIn(username: Option<string>, password: Option<string>, next: Option<string>,
                            index: string, remember: Option<string>)
    ensures !LoginOf(username, password, Some(false), next, index, remember).LoggedIn?
  {
  }

  // ---------------------------------------------------------------------------
  // Order list
  // ---------------------------------------------------------------------------

  /** The amount shown beside each line of an order: price times count. */
  method LineAmounts(lines: seq<OrderLine>) returns (amounts: seq<int>)
    ensures |amounts| == |lines|
    ensures forall i :: 0 <= i < |lines| ==> amounts[i] == lines[i].price * lines[i].count
    ensures Sum(amounts) == PriceOf(lines)
  {
    amounts := [];
    var i := 0;
    while i < |lines|
      invariant 0 <= i <= |lines| && |amounts| == i
      invariant forall k :: 0 <= k < i ==> amounts[k] == lines[k].price * lines[k].count
      invariant Sum(amounts) == PriceOf(lines[..i])
    {
      assert lines[..i + 1][..i] == lines[..i];
      assert (amounts + [Amount(lines[i])])[..i] == amounts;
      amounts := amounts + [Amount(lines[i])];
      i := i + 1;
    }
    assert lines[..i] == lines;
  }

  /** One amount per line, each the line's price times its count, and so
      adding up to the lines' total price. */
  predicate AmountsOf(amounts: seq<int>, lines: seq<OrderLine>)
  {
    |amounts| == |lines| && Sum(amounts) == PriceOf(lines) &&
    forall k :: 0 <= k < |lines| ==> amounts[k] == lines[k].price * lines[k].count
  }

  /** The answers of UserOrderView.get: back to the user centre for an empty
      page argument, a server error (BadPage) for a page below 1, or one page of
      orders with the amounts of all lines of all the user's orders. */
  datatype OrderPage = ToUserCenter | BadPage | Orders(amounts: seq<seq<int>>, page: int, links: seq<int>)

  /** UserOrderView.get over the lines of each of the user's orders, newest
      first, and the page count of the three-per-page paginator. */
  method ShowOrders(page: string, orderLines: seq<seq<OrderLine>>, numPages: nat) returns (p: OrderPage)
    requires numPages >= 1
    ensures page == "" <==> p == ToUserCenter
    ensures p == BadPage <==> page != "" && NormalizePage(page, numPages) == EmptyPage
    ensures p.Orders? ==> Shown(p.page) == NormalizePage(page, numPages) && p.links == PageWindow(p.page, numPages)
    ensures p.Orders? ==> |p.amounts| == |orderLines|
    ensures p.Orders? ==> forall i :: 0 <= i < |orderLines| ==> AmountsOf(p.amounts[i], orderLines[i])
  {
    if page == "" {
      return ToUserCenter;
    }
    var amounts: seq<seq<int>> := [];
    var i := 0;
    while i < |orderLines|
      invariant 0 <= i <= |orderLines| && |amounts| == i
      invariant forall k :: 0 <= k < i ==> AmountsOf(amounts[k], orderLines[k])
    {
      var a := LineAmounts(orderLines[i]);
      amounts := amounts + [a];
      i := i + 1;
    }
    var choice := NormalizePage(page, numPages);
    if choice == EmptyPage {
      return BadPage;
    }
    p := Orders(amounts, choice.page, PageWindow(choice.page, numPages));
  }

  // ---------------------------------------------------------------------------
  // Addresses
  // ---------------------------------------------------------------------------

  /** `$` in a Python pattern: the end of the text, or a newline that ends it. */
  predicate AtEnd(rest: string)
  {
    rest == "" || rest == "\n"
  }

  /** n ASCII digits followed by the end of the pattern. */
  predicate DigitsThenEnd(s: string, n: nat)
  {
    |s| >= n && (forall i :: 0 <= i < n ==> IsDigit(s[i])) && AtEnd(s[n..])
  }

  /** The phone pattern ^1[3589]\d{9}$|^147\d{8}$|^179\d{8}$, alternative by
      alternative. */
  predicate PhonePattern(phone: string)
  {
    (|phone| >= 2 && phone[0] == '1' && phone[1] in "3589" && DigitsThenEnd(phone[2..], 9)) ||
    (|phone| >= 3 && phone[..3] == "147" && DigitsThenEnd(phone[3..], 8)) ||
    (|phone| >= 3 && phone[..3] == "179" && DigitsThenEnd(phone[3..], 8))
  }

  /** An eleven-digit mobile number: 13, 15, 18 or 19, or 147 or 179, then
      digits up to eleven. */
  predicate MobileNumber(s: string)
  {
    |s| == 11 && (forall i :: 0 <= i < 11 ==> IsDigit(s[i])) && s[0] == '1' &&
    (s[1] in "3589" || s[..3] == "147" || s[..3] == "179")
  }

  /** The pattern accepts exactly the eleven-digit mobile numbers, each also
      with one trailing newline. */
  lemma {:induction false} PhonePatternShape(phone: string)
    ensures PhonePattern(phone) <==>
      MobileNumber(phone) || (|phone| == 12 && phone[11] == '\n' && MobileNumber(phone[..11]))
  {
    if |phone| >= 11 {
      var p := phone[..11];
      assert p[..3] == phone[..3];
      assert forall i :: 2 <= i < 11 ==> phone[2..][i - 2] == phone[i];
      assert forall i :: 3 <= i < 11 ==> phone[3..][i - 3] == phone[i];
      if |phone| == 12 {
        assert phone[2..][9..] == phone[11..] && phone[3..][8..] == phone[11..];
        assert phone[11..] == [phone[11]];
      }
    }
  }

  /** The answers of UserAddressView.post. */
  datatype AddressReply = Incomplete | WrongPhone | WrongZip | ServerError | ToAddresses

  /** The form's verdict before anything is written: receiver, address and
      phone must be given, then the phone must match, then the postal code
      must have six characters (a missing one makes len() raise). */
  function CheckAddress(receiver: Option<string>, addr: Option<string>, zipCode: Option<string>, phone: Option<string>)
    : (r: Option<AddressReply>)
    ensures r.None? <==> Given(receiver) && Given(addr) && Given(phone) && PhonePattern(phone.value) &&
                         zipCode.Some? && |zipCode.value| == 6
    ensures r == Some(Incomplete) <==> !Given(receiver) || !Given(addr) || !Given(phone)
    ensures r == Some(WrongPhone) <==> Given(receiver) && Given(addr) && Given(phone) && !PhonePattern(phone.value)
    ensures r == Some(ServerError) <==>
      Given(receiver) && Given(addr) && Given(phone) && PhonePattern(phone.value) && zipCode.None?
  {
    if !Given(receiver) || !Given(addr) || !Given(phone) then Some(Incomplete)
    else if !PhonePattern(phone.value) then Some(WrongPhone)
    else if zipCode.None? then Some(ServerError)
    else if |zipCode.value| != 6 then Some(WrongZip)
    else None
  }

  /** The user already has a default address. */
  predicate HasDefault(addresses: seq<Address>, user: UserId)
  {
    exists i :: 0 <= i < |addresses| && addresses[i].user == user && addresses[i].isDefault
  }

  /** Every user has at most one default address. */
  predicate OneDefaultEach(addresses: seq<Address>)
  {
    forall i, j :: 0 <= i < j < |addresses| && addresses[i].isDefault && addresses[j].isDefault ==>
      addresses[i].user != addresses[j].user
  }

  /** UserAddressView.post as a function of the address table. */
  function AddAddressOf(addresses: seq<Address>, user: UserId, receiver: Option<string>, addr: Option<string>,
                        zipCode: Option<string>, phone: Option<string>): (AddressReply, seq<Address>)
  {
    match CheckAddress(receiver, addr, zipCode, phone)
    case Some(err) => (err, addresses)
    case None =>
      (ToAddresses, addresses + [Address(user, receiver.value, addr.value, zipCode.value, phone.value, !HasDefault(addresses, user))])
  }

  /** UserAddressView.post. */
  method AddAddress(db: Database, user: UserId, receiver: Option<string>, addr: Option<string>,
                    zipCode: Option<string>, phone: Option<string>) returns (reply: AddressReply)
    modifies db
    ensures (reply, db.addresses) == AddAddressOf(old(db.addresses), user, receiver, addr, zipCode, phone)
    ensures db.Snapshot() == old(db.Snapshot())
  {
    var err := CheckAddress(receiver, addr, zipCode, phone);
    if err.Some? {
      return err.value;
    }
    var isDefault := true;
    var i := 0;
    while i < |db.addresses|
      invariant 0 <= i <= |db.addresses|
      invariant isDefault <==> !exists k :: 0 <= k < i && db.addresses[k].user == user && db.addresses[k].isDefault
    {
      if db.addresses[i].user == user && db.addresses[i].isDefault {
        isDefault := false;
      }
      i := i + 1;
    }
    db.addresses := db.addresses + [Address(user, receiver.value, addr.value, zipCode.value, phone.value, isDefault)];
    reply := ToAddresses;
  }

  /** A saved address is the user's default exactly when the user had none;
      afterwards the user has a default, and nothing else in the table
      changed. */
  lemma {:induction false} SavedDefaultIffNone(addresses: seq<Address>, user: UserId, receiver: Option<string>, addr: Option<string>,
                            zipCode: Option<string>, phone: Option<string>)
    ensures var (reply, after) := AddAddressOf(addresses, user, receiver, addr, zipCode, phone);
      (reply == ToAddresses <==> CheckAddress(receiver, addr, zipCode, phone).None?) &&
      (reply != ToAddresses ==> after == addresses) &&
      (reply == ToAddresses ==>
        |after| == |addresses| + 1 && after[..|addresses|] == addresses &&
        after[|addresses|].user == user &&
        (after[|addresses|].isDefault <==> !HasDefault(addresses, user)) &&
        HasDefault(after, user))
  {
    var (reply, after) := AddAddressOf(addresses, user, receiver, addr, zipCode, phone);
    if reply == ToAddresses {
      assert after[..|addresses|] == addresses;
      if HasDefault(addresses, user) {
        var i :| 0 <= i < |addresses| && addresses[i].user == user && addresses[i].isDefault;
        assert after[i] == addresses[i];
      }
    }
  }

  /** Adding addresses keeps every user at one default address at most. */
  lemma {:induction false} AddKeepsOneDefault(addresses: seq<Address>, user: UserId, receiver: Option<string>, addr: Option<string>,
                           zipCode: Option<string>, phone: Option<string>)
    requires OneDefaultEach(addresses)
    ensures OneDefaultEach(AddAddressOf(addresses, user, receiver, addr, zipCode, phone).1)
  {
    var after := AddAddressOf(addresses, user, receiver, addr, zipCode, phone).1;
    if after != addresses {
      var n := |addresses|;
      forall i, j | 0 <= i < j < |after| && after[i].isDefault && after[j].isDefault
        ensures after[i].user != after[j].user
      {
        if j == n {
          assert after[i] == addresses[i];
        } else {
          assert after[i] == addresses[i] && after[j] == addresses[j];
        }
      }
    }
  }
}
