/**
 * The USSD dialog engine (WeThrift/src/services/ussd.ts).
 *
 * `UssdEngine` holds the `ussd_sessions` table as a map from session id to `Session`. A turn
 * loads (or creates) the caller's session, overwrites its input, writes it back, and hands it
 * to the handler its `menuLevel` names. The handlers are pure choices between literal
 * responses (`Route`), the two-step login (`ProcessAuthMenu`, which changes the session and
 * writes it) and six list views whose text is built up line by line.
 *
 * Everything outside the engine is a parameter: store faults (`Faults`), the user-by-phone
 * lookup and the per-user lists (`Lookups`, where `None` is a lookup that threw), and the
 * number formatting of `toLocaleString` (`Lookups.format`).
 */
module Ussd {
  import opened Wrappers
  import opened Text

  /** `session.context`: what the login flow has collected so far. */
  datatype Context = Context(phoneNumber: Option<string>, pin: Option<string>)

  /**
   * `menu_level`: the nine levels the dispatcher knows, and any other stored value (which is
   * handled as the main menu).
   */
  datatype Level = Main | Auth | Dashboard | Groups | Savings | Loans | Contributions | Escrow | Complaints
                 | Unknown(name: string)

  datatype Session = Session(
    sessionId: string,
    phoneNumber: string,
    menuLevel: Level,
    userInput: string,
    isAuthenticated: bool,
    userId: Option<string>,
    groupId: Option<string>,
    context: Context)

  /** `USSDResponse`; `nextMenu` is `None` where the source leaves it out. */
  datatype UssdResponse = UssdResponse(message: Message, shouldEnd: bool, nextMenu: Option<Level>)

  /** A contribution, loan or escrow row as the list views read it. */
  datatype Entry = Entry(amount: real, status: string)

  datatype ComplaintEntry = ComplaintEntry(title: string, status: string)

  /** What the store does on this turn: a failed read, insert or update, or a handler that throws. */
  datatype Faults = Faults(readFails: bool, insertFails: bool, updateFails: bool, crash: bool)

  const NoFaults := Faults(false, false, false, false)

  /**
   * The lookups a turn may make. `accounts` maps a phone number to the id of the one user
   * holding it (a missing number is a failed lookup); the lists are those of the session's
   * user, and `None` is a lookup that threw.
   */
  datatype Lookups = Lookups(
    accounts: map<string, string>,
    groups: Option<seq<string>>,
    contributions: Option<seq<Entry>>,
    loans: Option<seq<Entry>>,
    escrow: Option<seq<Entry>>,
    complaints: Option<seq<ComplaintEntry>>,
    format: real -> string)

  /* ---------------------------------------------------------------- validators */

  /** `isValidPhoneNumber`: whitespace removed, then the Nigerian mobile pattern. */
  predicate IsValidPhoneNumber(phone: string) {
    MatchesNigerianPhone(RemoveSpaces(phone))
  }

  /** `isValidPIN`: exactly six digits. */
  predicate IsValidPin(pin: string) {
    IsSixDigitPin(pin)
  }

  /** A JavaScript-truthy optional string. */
  predicate Filled(s: Option<string>) {
    s.Some? && |s.value| > 0
  }

  /* ---------------------------------------------------------------- responses */

  /** The fixed texts of the dialog; `Wording` spells each one out. */
  datatype Phrase =
    | WelcomeText | SorryText | LoginFirstText | InvalidInputText
    | InvalidPrefix
    | MainOptions
    | DashboardOptions
    | GroupsOptions
    | SavingsOptions
    | LoansOptions
    | ContributionsOptions
    | EscrowOptions
    | ComplaintsOptions
    | DashboardText
    | GroupsText
    | HelpText
    | GoodbyeText
    | SavingsText
    | LoansText
    | ContributionsText
    | EscrowText
    | ComplaintsText
    | JoinGroupPrompt
    | CreateGroupPrompt
    | GoalPrompt
    | ContributionPrompt
    | LoanPrompt
    | RepaymentPrompt
    | SchedulePrompt
    | SellerPrompt
    | ComplaintTypePrompt
    | PinPrompt
    | PhoneRetry
    | WelcomeBack
    | BadCredentials
    | PinRetry
    | GroupsError
    | NoGroups
    | GroupsHeader
    | GroupsFooter
    | SavingsError
    | NoSavings
    | TotalPrefix
    | SavingsFooter
    | LoansError
    | NoLoans
    | LoansHeader
    | LoansFooter
    | ContributionsError
    | NoContributions
    | ContributionsHeader
    | ContributionsFooter
    | EscrowError
    | NoEscrow
    | EscrowHeader
    | EscrowFooter
    | ComplaintsError
    | NoComplaints
    | ComplaintsHeader
    | ComplaintsFooter

  /**
   * The text of a response. The engine only ever builds these four shapes: a fixed text,
   * "Invalid option" followed by a menu's options, a numbered list between a header and a
   * footer, and the savings total. `Render` gives the characters the source sends.
   */
  datatype Message =
    | Fixed(phrase: Phrase)
    | Invalid(options: Phrase)
    | Listed(header: Phrase, lines: string, footer: Phrase)
    | Total(amount: string)

  function Wording(p: Phrase): string {
    match p
    case WelcomeText => "Welcome to WeThrift\n\n1. Login\n2. Register\n3. Help\n0. Exit"
    case SorryText => "Sorry, an error occurred. Please try again later."
    case LoginFirstText => "Please login first."
    case InvalidInputText => "Invalid input. Please try again."
    case InvalidPrefix => "Invalid option. Please try again.\n\n"
    case MainOptions => "1. Dashboard\n2. Groups\n3. Help\n0. Exit"
    case DashboardOptions => "1. My Groups\n2. Savings\n3. Loans\n4. Contributions\n5. Escrow\n6. Complaints\n0. Back"
    case GroupsOptions => "1. Join Group\n2. Create Group\n3. My Groups\n0. Back"
    case SavingsOptions => "1. View Savings\n2. Create Savings Goal\n3. Make Contribution\n0. Back"
    case LoansOptions => "1. View Loans\n2. Apply for Loan\n3. Make Repayment\n0. Back"
    case ContributionsOptions => "1. View History\n2. Schedule Contribution\n0. Back"
    case EscrowOptions => "1. View Transactions\n2. Create Transaction\n0. Back"
    case ComplaintsOptions => "1. View Complaints\n2. Submit Complaint\n0. Back"
    case DashboardText => "Dashboard\n\n1. My Groups\n2. Savings\n3. Loans\n4. Contributions\n5. Escrow\n6. Complaints\n0. Back"
    case GroupsText => "Groups\n\n1. Join Group\n2. Create Group\n3. My Groups\n0. Back"
    case HelpText => "Help\n\nFor support, call +234-XXX-XXXX\nOr email support@wethrift.com\n\n0. Back"
    case GoodbyeText => "Thank you for using WeThrift!"
    case SavingsText => "Savings\n\n1. View Savings\n2. Create Savings Goal\n3. Make Contribution\n0. Back"
    case LoansText => "Loans\n\n1. View Loans\n2. Apply for Loan\n3. Make Repayment\n0. Back"
    case ContributionsText => "Contributions\n\n1. View History\n2. Schedule Contribution\n0. Back"
    case EscrowText => "Escrow\n\n1. View Transactions\n2. Create Transaction\n0. Back"
    case ComplaintsText => "Complaints\n\n1. View Complaints\n2. Submit Complaint\n0. Back"
    case JoinGroupPrompt => "Enter group invite code:"
    case CreateGroupPrompt => "Create Group\n\nEnter group name:"
    case GoalPrompt => "Create Savings Goal\n\nEnter goal name:"
    case ContributionPrompt => "Make Contribution\n\nEnter amount:"
    case LoanPrompt => "Apply for Loan\n\nEnter loan amount:"
    case RepaymentPrompt => "Make Repayment\n\nEnter repayment amount:"
    case SchedulePrompt => "Schedule Contribution\n\nEnter amount:"
    case SellerPrompt => "Create Escrow Transaction\n\nEnter seller phone number:"
    case ComplaintTypePrompt => "Submit Complaint\n\nEnter complaint type:\n1. Transaction\n2. Service\n3. Technical\n4. Other"
    case PinPrompt => "Please enter your 6-digit PIN:"
    case PhoneRetry => "Please enter a valid phone number:"
    case WelcomeBack => "Welcome back!\n\n1. Dashboard\n2. Groups\n3. Help\n0. Exit"
    case BadCredentials => "Invalid credentials. Please try again:\n\n1. Login\n2. Register\n0. Back"
    case PinRetry => "PIN must be 6 digits. Please try again:"
    case GroupsError => "Error loading groups. Please try again."
    case NoGroups => "You are not a member of any groups.\n\n1. Join Group\n2. Create Group\n0. Back"
    case GroupsHeader => "Your Groups:\n\n"
    case GroupsFooter => "\n0. Back"
    case SavingsError => "Error loading savings. Please try again."
    case NoSavings => "No savings found.\n\n1. Create Savings Goal\n2. Make Contribution\n0. Back"
    case TotalPrefix => "Total Savings: \U{20A6}"
    case SavingsFooter => "\n\n1. Create Savings Goal\n2. Make Contribution\n0. Back"
    case LoansError => "Error loading loans. Please try again."
    case NoLoans => "No loans found.\n\n1. Apply for Loan\n2. Make Repayment\n0. Back"
    case LoansHeader => "Your Loans:\n\n"
    case LoansFooter => "\n1. Apply for Loan\n2. Make Repayment\n0. Back"
    case ContributionsError => "Error loading contributions. Please try again."
    case NoContributions => "No contributions found.\n\n1. Schedule Contribution\n2. Make Contribution\n0. Back"
    case ContributionsHeader => "Recent Contributions:\n\n"
    case ContributionsFooter => "\n1. View All\n2. Schedule Contribution\n0. Back"
    case EscrowError => "Error loading escrow transactions. Please try again."
    case NoEscrow => "No escrow transactions found.\n\n1. Create Transaction\n0. Back"
    case EscrowHeader => "Escrow Transactions:\n\n"
    case EscrowFooter => "\n1. View All\n2. Create Transaction\n0. Back"
    case ComplaintsError => "Error loading complaints. Please try again."
    case NoComplaints => "No complaints found.\n\n1. Submit Complaint\n0. Back"
    case ComplaintsHeader => "Your Complaints:\n\n"
    case ComplaintsFooter => "\n1. View All\n2. Submit Complaint\n0. Back"
  }

  function Render(m: Message): string {
    match m
    case Fixed(p) => Wording(p)
    case Invalid(options) => Wording(InvalidPrefix) + Wording(options)
    case Listed(header, lines, footer) => Wording(header) + lines + Wording(footer)
    case Total(amount) => Wording(TotalPrefix) + amount + Wording(SavingsFooter)
  }

  function Continue(message: Message, next: Level): UssdResponse {
    UssdResponse(message, false, Some(next))
  }

  const Welcome: UssdResponse := Continue(Fixed(WelcomeText), Auth)
  const Sorry: UssdResponse := UssdResponse(Fixed(SorryText), true, None)
  const LoginFirst: UssdResponse := Continue(Fixed(LoginFirstText), Auth)
  const InvalidInput: UssdResponse := Continue(Fixed(InvalidInputText), Auth)

  /** What a menu handler does with the trimmed input: answer with a literal, or show a list. */
  datatype Action =
    | Say(response: UssdResponse)
    | ShowGroups
    | ShowSavings
    | ShowLoans
    | ShowContributions
    | ShowEscrow
    | ShowComplaints

  /** The level whose menu answers: an unknown level is handled as the main menu. */
  function Handled(level: Level): Level {
    if level.Unknown? then Main else level
  }

  /**
   * The keystroke a menu compares with its literal codes: the single character of a
   * one-character input, and nothing for any other input.
   */
  function Key(input: string): (k: Option<char>)
    ensures k.Some? <==> |input| == 1
    ensures k.Some? ==> input == [k.value]
  {
    if |input| == 1 then Some(input[0]) else None
  }

  /** The keys a menu recognises; any other input is an invalid option. */
  function Options(level: Level): set<char> {
    match Handled(level)
    case Dashboard => {'1', '2', '3', '4', '5', '6', '0'}
    case Contributions | Escrow | Complaints => {'1', '2', '0'}
    case _ => {'1', '2', '3', '0'}
  }

  /** `processMainMenu`: the welcome menu until the session is authenticated. */
  function MainMenu(authenticated: bool, key: Option<char>): (a: Action)
    ensures a.Say?
    ensures !authenticated ==> a.response == Welcome
    ensures a.response.shouldEnd <==> authenticated && key == Some('0')
    ensures authenticated && (key.None? || key.value !in {'1', '2', '3', '0'}) ==> a == Say(InvalidOption(Main))
  {
    if !authenticated then Say(Welcome)
    else if key == Some('1') then Say(Continue(Fixed(DashboardText), Dashboard))
    else if key == Some('2') then Say(Continue(Fixed(GroupsText), Groups))
    else if key == Some('3') then Say(Continue(Fixed(HelpText), Main))
    else if key == Some('0') then Say(UssdResponse(Fixed(GoodbyeText), true, None))
    else Say(InvalidOption(Main))
  }

  function DashboardMenu(key: Option<char>): (a: Action)
    ensures a.Say? ==> !a.response.shouldEnd
    ensures key.None? || key.value !in {'1', '2', '3', '4', '5', '6', '0'} ==> a == Say(InvalidOption(Dashboard))
  {
    if key == Some('1') then ShowGroups
    else if key == Some('2') then Say(Continue(Fixed(SavingsText), Savings))
    else if key == Some('3') then Say(Continue(Fixed(LoansText), Loans))
    else if key == Some('4') then Say(Continue(Fixed(ContributionsText), Contributions))
    else if key == Some('5') then Say(Continue(Fixed(EscrowText), Escrow))
    else if key == Some('6') then Say(Continue(Fixed(ComplaintsText), Complaints))
    else if key == Some('0') then Say(Continue(Fixed(MainOptions), Main))
    else Say(InvalidOption(Dashboard))
  }

  function GroupsMenu(key: Option<char>): (a: Action)
    ensures a.Say? ==> !a.response.shouldEnd
    ensures key.None? || key.value !in {'1', '2', '3', '0'} ==> a == Say(InvalidOption(Groups))
  {
    if key == Some('1') then Say(Continue(Fixed(JoinGroupPrompt), Groups))
    else if key == Some('2') then Say(Continue(Fixed(CreateGroupPrompt), Groups))
    else if key == Some('3') then ShowGroups
    else if key == Some('0') then Say(Continue(Fixed(MainOptions), Main))
    else Say(InvalidOption(Groups))
  }

  function SavingsMenu(key: Option<char>): (a: Action)
    ensures a.Say? ==> !a.response.shouldEnd
    ensures key.None? || key.value !in {'1', '2', '3', '0'} ==> a == Say(InvalidOption(Savings))
  {
    if key == Some('1') then ShowSavings
    else if key == Some('2') then Say(Continue(Fixed(GoalPrompt), Savings))
    else if key == Some('3') then Say(Continue(Fixed(ContributionPrompt), Contributions))
    else if key == Some('0') then Say(Continue(Fixed(DashboardOptions), Dashboard))
    else Say(InvalidOption(Savings))
  }

  function LoansMenu(key: Option<char>): (a: Action)
    ensures a.Say? ==> !a.response.shouldEnd
    ensures key.None? || key.value !in {'1', '2', '3', '0'} ==> a == Say(InvalidOption(Loans))
  {
    if key == Some('1') then ShowLoans
    else if key == Some('2') then Say(Continue(Fixed(LoanPrompt), Loans))
    else if key == Some('3') then Say(Continue(Fixed(RepaymentPrompt), Loans))
    else if key == Some('0') then Say(Continue(Fixed(DashboardOptions), Dashboard))
    else Say(InvalidOption(Loans))
  }

  function ContributionsMenu(key: Option<char>): (a: Action)
    ensures a.Say? ==> !a.response.shouldEnd
    ensures key.None? || key.value !in {'1', '2', '0'} ==> a == Say(InvalidOption(Contributions))
  {
    if key == Some('1') then ShowContributions
    else if key == Some('2') then Say(Continue(Fixed(SchedulePrompt), Contributions))
    else if key == Some('0') then Say(Continue(Fixed(DashboardOptions), Dashboard))
    else Say(InvalidOption(Contributions))
  }

  function EscrowMenu(key: Option<char>): (a: Action)
    ensures a.Say? ==> !a.response.shouldEnd
    ensures key.None? || key.value !in {'1', '2', '0'} ==> a == Say(InvalidOption(Escrow))
  {
    if key == Some('1') then ShowEscrow
    else if key == Some('2') then Say(Continue(Fixed(SellerPrompt), Escrow))
    else if key == Some('0') then Say(Continue(Fixed(DashboardOptions), Dashboard))
    else Say(InvalidOption(Escrow))
  }

  function ComplaintsMenu(key: Option<char>): (a: Action)
    ensures a.Say? ==> !a.response.shouldEnd
    ensures key.None? || key.value !in {'1', '2', '0'} ==> a == Say(InvalidOption(Complaints))
  {
    if key == Some('1') then ShowComplaints
    else if key == Some('2') then
      Say(Continue(Fixed(ComplaintTypePrompt), Complaints))
    else if key == Some('0') then Say(Continue(Fixed(DashboardOptions), Dashboard))
    else Say(InvalidOption(Complaints))
  }

  /** The option list an invalid input is answered with, after "Invalid option". */
  function OptionsText(level: Level): Phrase {
    match Handled(level)
    case Dashboard => DashboardOptions
    case Groups => GroupsOptions
    case Savings => SavingsOptions
    case Loans => LoansOptions
    case Contributions => ContributionsOptions
    case Escrow => EscrowOptions
    case Complaints => ComplaintsOptions
    case _ => MainOptions
  }

  /** The answer to an input no option of the level matches: the same menu again. */
  function InvalidOption(level: Level): UssdResponse {
    Continue(Invalid(OptionsText(level)), Handled(level))
  }

  /**
   * The switch of `processUSSDRequest` for every level but 'auth', on the keystroke of the
   * trimmed input (every handler trims the same input). Only '0' at an authenticated main
   * menu ends the dialog; a key no option matches is answered with "Invalid option" and the
   * same menu (an unknown level counting as 'main').
   */
  function Route(level: Level, authenticated: bool, key: Option<char>): (a: Action)
    requires level != Auth
    ensures a.Say? && a.response.shouldEnd <==> Handled(level) == Main && authenticated && key == Some('0')
    ensures (key.None? || key.value !in Options(level)) && (Handled(level) == Main ==> authenticated)
      ==> a == Say(InvalidOption(level))
  {
    match Handled(level)
    case Dashboard => DashboardMenu(key)
    case Groups => GroupsMenu(key)
    case Savings => SavingsMenu(key)
    case Loans => LoansMenu(key)
    case Contributions => ContributionsMenu(key)
    case Escrow => EscrowMenu(key)
    case Complaints => ComplaintsMenu(key)
    case _ => MainMenu(authenticated, key)
  }

  /* ---------------------------------------------------------------- list views */

  function NumberedLine(n: nat, text: string): string {
    NatToString(n) + ". " + text + "\n"
  }

  /** The lines `forEach((x, index) => message += ...)` appends, numbered from `n`. */
  function ListingFrom(n: nat, texts: seq<string>): string
    decreases |texts|
  {
    if |texts| == 0 then "" else NumberedLine(n, texts[0]) + ListingFrom(n + 1, texts[1..])
  }

  function Listing(texts: seq<string>): string {
    ListingFrom(1, texts)
  }

  /** Appending one more text appends its line with the next number. */
  lemma ListingSnoc(n: nat, texts: seq<string>, text: string)
    ensures ListingFrom(n, texts + [text]) == ListingFrom(n, texts) + NumberedLine(n + |texts|, text)
  {
    ListingConcat(n, texts, [text]);
    assert ListingFrom(n + |texts|, [text]) == NumberedLine(n + |texts|, text) + ListingFrom(n + |texts| + 1, []);
  }

  /** Listing two runs of items one after the other numbers the second run on from the first. */
  lemma {:induction false} ListingConcat(n: nat, a: seq<string>, b: seq<string>)
    ensures ListingFrom(n, a + b) == ListingFrom(n, a) + ListingFrom(n + |a|, b)
    decreases |a|
  {
    if |a| == 0 {
      assert a + b == b;
    } else {
      assert (a + b)[0] == a[0];
      assert (a + b)[1..] == a[1..] + b;
      ListingConcat(n + 1, a[1..], b);
      assert ListingFrom(n, a + b) == NumberedLine(n, a[0]) + ListingFrom(n + 1, a[1..] + b);
    }
  }

  /** The listing of any item splits at that item, which carries the number `n + i`. */
  lemma ListingSplit(n: nat, texts: seq<string>, i: nat)
    requires i < |texts|
    ensures ListingFrom(n, texts) == ListingFrom(n, texts[..i]) + NumberedLine(n + i, texts[i]) + ListingFrom(n + i + 1, texts[i + 1..])
  {
    assert texts == texts[..i] + texts[i..];
    ListingConcat(n, texts[..i], texts[i..]);
    assert texts[i..][0] == texts[i];
    assert texts[i..][1..] == texts[i + 1..];
  }

  /** The first line of a non-empty listing is "1. " followed by the first item. */
  lemma ListingStartsAtOne(texts: seq<string>)
    requires |texts| > 0
    ensures Listing(texts)[..|NumberedLine(1, texts[0])|] == NumberedLine(1, texts[0])
    ensures NumberedLine(1, texts[0]) == "1. " + texts[0] + "\n"
  {
    assert NatToString(1) == "1";
  }

  function Take(xs: seq<Entry>, k: nat): seq<Entry> {
    if |xs| <= k then xs else xs[..k]
  }

  function EntryText(format: real -> string, e: Entry): string {
    "\U{20A6}" + format(e.amount) + " - " + e.status
  }

  function EntryTexts(format: real -> string, es: seq<Entry>): (ts: seq<string>)
    ensures |ts| == |es|
  {
    seq(|es|, i requires 0 <= i < |es| => EntryText(format, es[i]))
  }

  function ComplaintTexts(cs: seq<ComplaintEntry>): (ts: seq<string>)
    ensures |ts| == |cs|
  {
    seq(|cs|, i requires 0 <= i < |cs| => cs[i].title + " - " + cs[i].status)
  }

  /** The sum `showUserSavings` accumulates: the amounts of completed contributions only. */
  function CompletedSum(es: seq<Entry>): real
    decreases |es|
  {
    if |es| == 0 then 0.0
    else CompletedSum(es[..|es| - 1]) + (if es[|es| - 1].status == "completed" then es[|es| - 1].amount else 0.0)
  }

  lemma {:induction false} CompletedSumConcat(a: seq<Entry>, b: seq<Entry>)
    ensures CompletedSum(a + b) == CompletedSum(a) + CompletedSum(b)
    decreases |b|
  {
    if |b| == 0 {
      assert a + b == a;
    } else {
      assert (a + b)[..|a + b| - 1] == a + b[..|b| - 1];
      CompletedSumConcat(a, b[..|b| - 1]);
    }
  }

  lemma {:induction false} CompletedSumIgnoresOthers(es: seq<Entry>)
    requires forall i :: 0 <= i < |es| ==> es[i].status != "completed"
    ensures CompletedSum(es) == 0.0
    decreases |es|
  {
    if |es| > 0 {
      CompletedSumIgnoresOthers(es[..|es| - 1]);
    }
  }

  function GroupsView(userId: Option<string>, groups: Option<seq<string>>): (r: UssdResponse)
    ensures !Filled(userId) ==> r == LoginFirst
    ensures Filled(userId) ==> !r.shouldEnd && r.nextMenu == Some(Groups)
  {
    if !Filled(userId) then LoginFirst
    else if groups.None? then Continue(Fixed(GroupsError), Groups)
    else if |groups.value| == 0 then Continue(Fixed(NoGroups), Groups)
    else Continue(Listed(GroupsHeader, Listing(groups.value), GroupsFooter), Groups)
  }

  function SavingsView(userId: Option<string>, contributions: Option<seq<Entry>>, format: real -> string): (r: UssdResponse)
    ensures !Filled(userId) ==> r == LoginFirst
    ensures Filled(userId) ==> !r.shouldEnd && r.nextMenu == Some(Savings)
  {
    if !Filled(userId) then LoginFirst
    else if contributions.None? then Continue(Fixed(SavingsError), Savings)
    else if |contributions.value| == 0 then Continue(Fixed(NoSavings), Savings)
    else Continue(Total(format(CompletedSum(contributions.value))), Savings)
  }

  function LoansView(userId: Option<string>, loans: Option<seq<Entry>>, format: real -> string): (r: UssdResponse)
    ensures !Filled(userId) ==> r == LoginFirst
    ensures Filled(userId) ==> !r.shouldEnd && r.nextMenu == Some(Loans)
  {
    if !Filled(userId) then LoginFirst
    else if loans.None? then Continue(Fixed(LoansError), Loans)
    else if |loans.value| == 0 then Continue(Fixed(NoLoans), Loans)
    else Continue(Listed(LoansHeader, Listing(EntryTexts(format, loans.value)), LoansFooter), Loans)
  }

  function ContributionsView(userId: Option<string>, contributions: Option<seq<Entry>>, format: real -> string): (r: UssdResponse)
    ensures !Filled(userId) ==> r == LoginFirst
    ensures Filled(userId) ==> !r.shouldEnd && r.nextMenu == Some(Contributions)
  {
    if !Filled(userId) then LoginFirst
    else if contributions.None? then Continue(Fixed(ContributionsError), Contributions)
    else if |contributions.value| == 0 then
      Continue(Fixed(NoContributions), Contributions)
    else Continue(Listed(ContributionsHeader, Listing(EntryTexts(format, Take(contributions.value, 5))),
                         ContributionsFooter), Contributions)
  }

  function EscrowView(userId: Option<string>, escrow: Option<seq<Entry>>, format: real -> string): (r: UssdResponse)
    ensures !Filled(userId) ==> r == LoginFirst
    ensures Filled(userId) ==> !r.shouldEnd && r.nextMenu == Some(Escrow)
  {
    if !Filled(userId) then LoginFirst
    else if escrow.None? then Continue(Fixed(EscrowError), Escrow)
    else if |escrow.value| == 0 then Continue(Fixed(NoEscrow), Escrow)
    else Continue(Listed(EscrowHeader, Listing(EntryTexts(format, Take(escrow.value, 5))), EscrowFooter),
                  Escrow)
  }

  function ComplaintsView(userId: Option<string>, complaints: Option<seq<ComplaintEntry>>): (r: UssdResponse)
    ensures !Filled(userId) ==> r == LoginFirst
    ensures Filled(userId) ==> !r.shouldEnd && r.nextMenu == Some(Complaints)
  {
    if !Filled(userId) then LoginFirst
    else if complaints.None? then Continue(Fixed(ComplaintsError), Complaints)
    else if |complaints.value| == 0 then Continue(Fixed(NoComplaints), Complaints)
    else
      var shown := if |complaints.value| <= 5 then complaints.value else complaints.value[..5];
      Continue(Listed(ComplaintsHeader, Listing(ComplaintTexts(shown)), ComplaintsFooter), Complaints)
  }

  /** The response `processUSSDRequest` returns for a menu action. */
  function Perform(a: Action, userId: Option<string>, env: Lookups): (r: UssdResponse)
    ensures !a.Say? && !Filled(userId) ==> r == LoginFirst
    ensures !a.Say? ==> !r.shouldEnd
  {
    match a
    case Say(r) => r
    case ShowGroups => GroupsView(userId, env.groups)
    case ShowSavings => SavingsView(userId, env.contributions, env.format)
    case ShowLoans => LoansView(userId, env.loans, env.format)
    case ShowContributions => ContributionsView(userId, env.contributions, env.format)
    case ShowEscrow => EscrowView(userId, env.escrow, env.format)
    case ShowComplaints => ComplaintsView(userId, env.complaints)
  }

  /** Contributions, escrow transactions and complaints beyond the fifth are never shown. */
  lemma AtMostFiveShown(userId: Option<string>, es: seq<Entry>, cs: seq<ComplaintEntry>, format: real -> string)
    requires |es| >= 5 && |cs| >= 5
    ensures ContributionsView(userId, Some(es), format) == ContributionsView(userId, Some(es[..5]), format)
    ensures EscrowView(userId, Some(es), format) == EscrowView(userId, Some(es[..5]), format)
    ensures ComplaintsView(userId, Some(cs)) == ComplaintsView(userId, Some(cs[..5]))
  {
    assert Take(es, 5) == es[..5] == Take(es[..5], 5);
    assert cs[..5][..5] == cs[..5];
    if |cs| == 5 {
      assert cs == cs[..5];
    }
  }

  /** Every group is listed, numbered by its position from 1, after the groups before it. */
  lemma AllGroupsListed(userId: Option<string>, groups: seq<string>, i: nat)
    requires Filled(userId) && i < |groups|
    ensures var m := GroupsView(userId, Some(groups)).message;
      var start := |Listing(groups[..i])|;
      var line := NumberedLine(i + 1, groups[i]);
      && m.Listed? && m.header == GroupsHeader && m.footer == GroupsFooter
      && start + |line| <= |m.lines| && m.lines[start..start + |line|] == line
  {
    var prefix := ListingFrom(1, groups[..i]);
    var line := NumberedLine(i + 1, groups[i]);
    ListingSplit(1, groups, i);
    var lines := GroupsView(userId, Some(groups)).message.lines;
    assert lines == prefix + line + ListingFrom(i + 2, groups[i + 1..]);
    assert lines[|prefix|..|prefix| + |line|] == line;
  }

  /* ---------------------------------------------------------------- sessions */

  /** `createSession`'s record: main menu, empty input, not authenticated, empty context. */
  function Fresh(sessionId: string, phoneNumber: string): (s: Session)
    ensures s.menuLevel == Main && s.userInput == "" && !s.isAuthenticated
    ensures s.context == Context(None, None) && s.userId.None? && s.sessionId == sessionId
  {
    Session(sessionId, phoneNumber, Main, "", false, None, None, Context(None, None))
  }

  /**
   * The row `updateSession` leaves: every written column takes the session's value, except
   * that an absent user or group id is left out of the update and keeps the stored one.
   */
  function Written(row: Session, s: Session): (r: Session)
    ensures r.(userId := s.userId, groupId := s.groupId) == s
    ensures r.userId == (if s.userId.Some? then s.userId else row.userId)
    ensures r.groupId == (if s.groupId.Some? then s.groupId else row.groupId)
  {
    s.(userId := if s.userId.Some? then s.userId else row.userId,
       groupId := if s.groupId.Some? then s.groupId else row.groupId)
  }

  /** An update by session id: no row, or a failed update, changes nothing. */
  function Put(store: map<string, Session>, s: Session, fails: bool): map<string, Session> {
    if fails || s.sessionId !in store then store else store[s.sessionId := Written(store[s.sessionId], s)]
  }

  /** Writing a session twice is writing its second version, when the group id is unchanged. */
  lemma PutTwice(store: map<string, Session>, s1: Session, s2: Session, fails: bool)
    requires s1.sessionId == s2.sessionId && s1.groupId == s2.groupId
    requires s2.userId.Some? || s1.userId == s2.userId
    ensures Put(Put(store, s1, fails), s2, fails) == Put(store, s2, fails)
  {
  }

  /* ---------------------------------------------------------------- login */

  datatype AuthOutcome = AuthOutcome(session: Session, response: UssdResponse)

  /**
   * The first login step on the trimmed input: a valid number is stored in the context and
   * the PIN is asked for; anything else leaves the session as it was.
   */
  function PhoneStage(s: Session, input: string): (o: AuthOutcome)
    requires !Filled(s.context.phoneNumber)
    ensures o.session.(context := s.context) == s && o.session.context.pin == s.context.pin
    ensures o.session == s <==> !IsValidPhoneNumber(input)
    ensures o.session != s ==> o.session.context.phoneNumber == Some(input) && o.response.message == Fixed(PinPrompt)
    ensures o.session == s ==> o.response.message == Fixed(PhoneRetry)
    ensures !o.response.shouldEnd && o.response.nextMenu == Some(Auth)
  {
    if IsValidPhoneNumber(input) then
      PhoneShape(RemoveSpaces(input));
      AuthOutcome(s.(context := s.context.(phoneNumber := Some(input))), Continue(Fixed(PinPrompt), Auth))
    else AuthOutcome(s, Continue(Fixed(PhoneRetry), Auth))
  }

  /**
   * The second login step, once a number is stored: a six-digit PIN is stored, and the
   * caller is logged in as the user holding the number when there is one. A PIN that is not
   * six digits leaves the session as it was.
   */
  function PinStage(s: Session, input: string, accounts: map<string, string>): (o: AuthOutcome)
    requires s.context.phoneNumber.Some? && !Filled(s.context.pin)
    ensures o.session == s <==> !IsValidPin(input)
    ensures !IsValidPin(input) ==> o.response.message == Fixed(PinRetry)
    ensures IsValidPin(input) ==> o.session.context == s.context.(pin := Some(input))
    ensures o.session.(context := s.context, isAuthenticated := s.isAuthenticated, userId := s.userId, menuLevel := s.menuLevel) == s
    ensures var loggedIn := IsValidPin(input) && s.context.phoneNumber.value in accounts;
      && (loggedIn ==> o.session.isAuthenticated && o.session.userId == Some(accounts[s.context.phoneNumber.value])
                       && o.session.menuLevel == Main && o.response == Continue(Fixed(WelcomeBack), Main))
      && (!loggedIn ==> o.session.(context := s.context) == s && o.response.nextMenu == Some(Auth))
    ensures !o.response.shouldEnd
  {
    if IsValidPin(input) then
      var withPin := s.(context := s.context.(pin := Some(input)));
      if s.context.phoneNumber.value in accounts then
        AuthOutcome(withPin.(isAuthenticated := true, userId := Some(accounts[s.context.phoneNumber.value]), menuLevel := Main),
                    Continue(Fixed(WelcomeBack), Main))
      else AuthOutcome(withPin, Continue(Fixed(BadCredentials), Auth))
    else AuthOutcome(s, Continue(Fixed(PinRetry), Auth))
  }

  /**
   * `processAuthMenu` as a function of the session: first a phone number, then a PIN and
   * the user-by-phone lookup. Once a PIN is stored nothing but "Invalid input" follows.
   */
  function AuthStep(s: Session, accounts: map<string, string>): (o: AuthOutcome)
    ensures o.session.sessionId == s.sessionId && o.session.groupId == s.groupId
    ensures !o.response.shouldEnd && o.response.nextMenu.Some?
    ensures o.session.isAuthenticated && !s.isAuthenticated ==> o.session.userId.Some? && o.session.menuLevel == Main
    ensures !o.session.isAuthenticated || o.session.userId.Some? || s.isAuthenticated
    ensures o.session.userId == s.userId || o.session.userId.Some?
    ensures o.session.menuLevel == s.menuLevel || (o.session.isAuthenticated && o.session.menuLevel == Main)
    ensures Filled(s.context.phoneNumber) && Filled(s.context.pin) ==> o == AuthOutcome(s, InvalidInput)
  {
    var input := Trim(s.userInput);
    if !Filled(s.context.phoneNumber) then PhoneStage(s, input)
    else if !Filled(s.context.pin) then PinStage(s, input, accounts)
    else AuthOutcome(s, InvalidInput)
  }

  /* ---------------------------------------------------------------- one turn */

  datatype TurnResult = TurnResult(store: map<string, Session>, response: UssdResponse)

  /** The session the handlers see: the stored one, or a fresh one when reading fails or finds none. */
  function Loaded(store: map<string, Session>, sessionId: string, phoneNumber: string, userInput: string, f: Faults): Session {
    (if !f.readFails && sessionId in store then store[sessionId] else Fresh(sessionId, phoneNumber)).(userInput := userInput)
  }

  /** The store once the turn's session is loaded or created and its input is written back. */
  function Prepared(store: map<string, Session>, sessionId: string, phoneNumber: string, userInput: string, f: Faults): map<string, Session> {
    var created :=
      if (f.readFails || sessionId !in store) && !f.insertFails && sessionId !in store
      then store[sessionId := Fresh(sessionId, phoneNumber)] else store;
    Put(created, Loaded(store, sessionId, phoneNumber, userInput, f), f.updateFails)
  }

  /** The store after one turn: the prepared store, plus whatever the login step writes. */
  function TurnStore(store: map<string, Session>, sessionId: string, phoneNumber: string, userInput: string,
                     f: Faults, accounts: map<string, string>): map<string, Session>
  {
    var s := Loaded(store, sessionId, phoneNumber, userInput, f);
    var prepared := Prepared(store, sessionId, phoneNumber, userInput, f);
    if !f.crash && s.menuLevel == Auth then
      var o := AuthStep(s, accounts);
      if o.session == s then prepared else Put(prepared, o.session, f.updateFails)
    else prepared
  }

  /** The answer of one turn: the apology, the login step's answer, or the menu's. */
  function TurnResponse(store: map<string, Session>, sessionId: string, phoneNumber: string, userInput: string,
                        f: Faults, env: Lookups): UssdResponse
  {
    var s := Loaded(store, sessionId, phoneNumber, userInput, f);
    if f.crash then Sorry
    else if s.menuLevel == Auth then AuthStep(s, env.accounts).response
    else Perform(Route(s.menuLevel, s.isAuthenticated, Key(Trim(s.userInput))), s.userId, env)
  }

  /** `processUSSDRequest`: the store and the response after one turn. */
  function Turn(store: map<string, Session>, sessionId: string, phoneNumber: string, userInput: string,
                f: Faults, env: Lookups): TurnResult
  {
    TurnResult(TurnStore(store, sessionId, phoneNumber, userInput, f, env.accounts),
               TurnResponse(store, sessionId, phoneNumber, userInput, f, env))
  }

  /** The store facts every turn keeps: rows are keyed by their id, and authenticated rows carry a user id. */
  ghost predicate WellFormed(store: map<string, Session>) {
    forall k :: k in store ==> store[k].sessionId == k && (store[k].isAuthenticated ==> store[k].userId.Some?)
  }

  /** Writing a session that carries a user id whenever it is authenticated keeps the store well formed. */
  lemma PutKeepsWellFormed(store: map<string, Session>, s: Session, fails: bool)
    requires WellFormed(store) && (s.isAuthenticated ==> s.userId.Some?)
    ensures WellFormed(Put(store, s, fails))
  {
  }

  lemma {:induction false} TurnKeepsWellFormed(store: map<string, Session>, sessionId: string, phoneNumber: string,
                                               userInput: string, f: Faults, accounts: map<string, string>)
    requires WellFormed(store)
    ensures WellFormed(TurnStore(store, sessionId, phoneNumber, userInput, f, accounts))
  {
    var s := Loaded(store, sessionId, phoneNumber, userInput, f);
    assert s.isAuthenticated ==> s.userId.Some?;
    var created :=
      if (f.readFails || sessionId !in store) && !f.insertFails && sessionId !in store
      then store[sessionId := Fresh(sessionId, phoneNumber)] else store;
    assert WellFormed(created);
    PutKeepsWellFormed(created, s, f.updateFails);
    var prepared := Prepared(store, sessionId, phoneNumber, userInput, f);
    assert prepared == Put(created, s, f.updateFails);
    if !f.crash && s.menuLevel == Auth {
      var o := AuthStep(s, accounts);
      assert o.session.isAuthenticated ==> o.session.userId.Some?;
      PutKeepsWellFormed(prepared, o.session, f.updateFails);
    }
  }

  /** A dialog with no stored session (or an unreadable one) opens on the welcome menu. */
  lemma NewDialogWelcomes(store: map<string, Session>, sessionId: string, phoneNumber: string, userInput: string,
                          f: Faults, env: Lookups)
    requires (f.readFails || sessionId !in store) && !f.crash
    ensures Turn(store, sessionId, phoneNumber, userInput, f, env).response == Welcome
  {
  }

  /** Any exception escaping a handler gives the apology and ends the dialog. */
  lemma CrashApologises(store: map<string, Session>, sessionId: string, phoneNumber: string, userInput: string,
                        f: Faults, env: Lookups)
    requires f.crash
    ensures var r := Turn(store, sessionId, phoneNumber, userInput, f, env).response;
      r == Sorry && r.shouldEnd && r.nextMenu.None?
  {
  }

  /** The row an update leaves: the written session, or the old row when the update fails. */
  lemma PutRow(store: map<string, Session>, s: Session, fails: bool)
    requires s.sessionId in store
    ensures s.sessionId in Put(store, s, fails)
    ensures Put(store, s, fails)[s.sessionId] == if fails then store[s.sessionId] else Written(store[s.sessionId], s)
  {
  }

  /**
   * `nextMenu` is never stored: a turn either keeps the stored menu level or leaves 'main'
   * (a fresh session written over an unreadable one, or a successful login from 'auth').
   */
  lemma {:induction false} MenuLevelOnlyBecomesMain(store: map<string, Session>, sessionId: string, phoneNumber: string,
                                                    userInput: string, f: Faults, accounts: map<string, string>)
    requires WellFormed(store) && sessionId in store
    ensures var after := TurnStore(store, sessionId, phoneNumber, userInput, f, accounts);
      && sessionId in after
      && (after[sessionId].menuLevel == store[sessionId].menuLevel || after[sessionId].menuLevel == Main)
      && (after[sessionId].menuLevel != store[sessionId].menuLevel ==>
            f.readFails || (store[sessionId].menuLevel == Auth && after[sessionId].isAuthenticated))
  {
    var row := store[sessionId];
    var s := Loaded(store, sessionId, phoneNumber, userInput, f);
    assert s.sessionId == sessionId;
    assert s.menuLevel == if f.readFails then Main else row.menuLevel;
    var prepared := Prepared(store, sessionId, phoneNumber, userInput, f);
    assert prepared == Put(store, s, f.updateFails);
    PutRow(store, s, f.updateFails);
    assert prepared[sessionId].menuLevel == if f.updateFails then row.menuLevel else s.menuLevel;
    var after := TurnStore(store, sessionId, phoneNumber, userInput, f, accounts);
    if !f.crash && s.menuLevel == Auth {
      var o := AuthStep(s, accounts);
      if o.session != s {
        assert after == Put(prepared, o.session, f.updateFails);
        PutRow(prepared, o.session, f.updateFails);
      }
    } else {
      assert after == prepared;
    }
  }

  /**
   * A logged-in caller at 'main' who picks the dashboard gets the dashboard menu, but the
   * stored level stays 'main', so picking '1' again shows the dashboard menu again instead of
   * the group list.
   */
  lemma {:induction false} NextMenuNotFollowed(store: map<string, Session>, sessionId: string, phoneNumber: string, env: Lookups)
    requires WellFormed(store) && sessionId in store
    requires store[sessionId].menuLevel == Main && store[sessionId].isAuthenticated
    ensures var t1 := Turn(store, sessionId, phoneNumber, "1", NoFaults, env);
      var t2 := Turn(t1.store, sessionId, phoneNumber, "1", NoFaults, env);
      && t1.response.nextMenu == Some(Dashboard)
      && sessionId in t1.store && t1.store[sessionId].menuLevel == Main
      && t2.response == t1.response
  {
    DashboardPicked(store, sessionId, phoneNumber, env);
    var t1 := Turn(store, sessionId, phoneNumber, "1", NoFaults, env);
    TurnKeepsWellFormed(store, sessionId, phoneNumber, "1", NoFaults, env.accounts);
    DashboardPicked(t1.store, sessionId, phoneNumber, env);
  }

  /** At a logged-in 'main', '1' stores the input, keeps the level and answers the dashboard menu. */
  lemma DashboardPicked(store: map<string, Session>, sessionId: string, phoneNumber: string, env: Lookups)
    requires WellFormed(store) && sessionId in store
    requires store[sessionId].menuLevel == Main && store[sessionId].isAuthenticated
    ensures Turn(store, sessionId, phoneNumber, "1", NoFaults, env)
         == TurnResult(store[sessionId := store[sessionId].(userInput := "1")], Continue(Fixed(DashboardText), Dashboard))
  {
    var row := store[sessionId];
    var s := Loaded(store, sessionId, phoneNumber, "1", NoFaults);
    assert s == row.(userInput := "1");
    assert Written(row, s) == s;
    assert TurnStore(store, sessionId, phoneNumber, "1", NoFaults, env.accounts) == store[sessionId := s];
    TrimKeepsUnpadded("1");
    assert Key(Trim(s.userInput)) == Some('1');
    assert Route(Main, true, Some('1')) == Say(Continue(Fixed(DashboardText), Dashboard));
  }

  /**
   * After a valid PIN whose phone lookup fails, the PIN stays stored, so on the next turn at
   * 'auth' every input is answered "Invalid input".
   */
  lemma {:induction false} LockedOutAfterFailedLogin(store: map<string, Session>, sessionId: string, phoneNumber: string,
                                                     pin: string, next: string, env: Lookups)
    requires WellFormed(store) && sessionId in store
    requires store[sessionId].menuLevel == Auth
    requires Filled(store[sessionId].context.phoneNumber) && !Filled(store[sessionId].context.pin)
    requires IsValidPin(Trim(pin)) && store[sessionId].context.phoneNumber.value !in env.accounts
    ensures var t1 := Turn(store, sessionId, phoneNumber, pin, NoFaults, env);
      var t2 := Turn(t1.store, sessionId, phoneNumber, next, NoFaults, env);
      && t1.response.message == Fixed(BadCredentials)
      && t2.response == InvalidInput
  {
    var s := Loaded(store, sessionId, phoneNumber, pin, NoFaults);
    var o := AuthStep(s, env.accounts);
    assert Trim(pin) != [];
    assert o.session == s.(context := s.context.(pin := Some(Trim(pin))));
    var t1 := Turn(store, sessionId, phoneNumber, pin, NoFaults, env);
    assert sessionId in t1.store && t1.store[sessionId].context == o.session.context;
    assert t1.store[sessionId].menuLevel == Auth;
  }

  /**
   * Since no code path stores 'auth' as a level, a store whose every session is at 'main'
   * and unauthenticated stays so, and every turn answers the welcome menu (or the apology).
   */
  lemma {:induction false} WelcomeForever(store: map<string, Session>, sessionId: string, phoneNumber: string,
                                          userInput: string, f: Faults, env: Lookups)
    requires WellFormed(store)
    requires forall k :: k in store ==> store[k].menuLevel == Main && !store[k].isAuthenticated
    ensures var t := Turn(store, sessionId, phoneNumber, userInput, f, env);
      && (forall k :: k in t.store ==> t.store[k].menuLevel == Main && !t.store[k].isAuthenticated)
      && t.response in {Welcome, Sorry}
  {
    var s := Loaded(store, sessionId, phoneNumber, userInput, f);
    assert s.menuLevel == Main && !s.isAuthenticated;
    var prepared := Prepared(store, sessionId, phoneNumber, userInput, f);
    assert forall k :: k in prepared ==> prepared[k].menuLevel == Main && !prepared[k].isAuthenticated;
  }

  /* ---------------------------------------------------------------- the unimported services */

  /**
   * As written, ussd.ts imports neither EscrowService nor ComplaintService, so for a logged-in
   * user both list views always throw and answer their error text: the lookup that fails.
   * Whatever list the services would return (Some(es), Some(cs)) gives a different answer.
   */
  lemma UnimportedViewsAsWritten(userId: Option<string>, es: seq<Entry>, cs: seq<ComplaintEntry>, format: real -> string)
    requires Filled(userId)
    ensures EscrowView(userId, None, format) == Continue(Fixed(EscrowError), Escrow)
    ensures ComplaintsView(userId, None) == Continue(Fixed(ComplaintsError), Complaints)
    ensures EscrowView(userId, Some(es), format) != EscrowView(userId, None, format)
    ensures ComplaintsView(userId, Some(cs)) != ComplaintsView(userId, None)
  {
  }

  /* ---------------------------------------------------------------- the stored row as read */

  /** The session id an update whose `sessionId` is undefined is filtered by (`session_id=eq.undefined`). */
  const UndefinedId := "undefined"

  /**
   * One turn as ussd.ts reads a stored row. `getSession` hands back the row under its column
   * names (`menu_level`, `is_authenticated`, `user_id`, `session_id`), so on a found row the
   * handler sees `menuLevel`, `isAuthenticated`, `userId` and `sessionId` undefined: the
   * switch falls to the main menu, which sees no login. The write-back, filtered by an
   * undefined session id, reaches only a row whose id is the text "undefined", and there sets
   * the input and the found row's context (the undefined columns are dropped from the update).
   * A session not found takes the same path as in Turn, since createSession builds its
   * object under the field names.
   */
  function TurnAsWritten(store: map<string, Session>, sessionId: string, phoneNumber: string, userInput: string,
                         f: Faults, env: Lookups): TurnResult
  {
    if f.readFails || sessionId !in store then Turn(store, sessionId, phoneNumber, userInput, f, env)
    else
      var row := store[sessionId];
      var written :=
        if !f.updateFails && UndefinedId in store
        then store[UndefinedId := store[UndefinedId].(userInput := userInput, context := row.context)]
        else store;
      TurnResult(written, if f.crash then Sorry else Perform(Route(Main, false, Key(Trim(userInput))), None, env))
  }

  /** As written, every turn on every store is answered by the welcome menu or the apology. */
  lemma WelcomeAlwaysAsWritten(store: map<string, Session>, sessionId: string, phoneNumber: string,
                               userInput: string, f: Faults, env: Lookups)
    ensures TurnAsWritten(store, sessionId, phoneNumber, userInput, f, env).response in {Welcome, Sorry}
  {
    var s := Loaded(store, sessionId, phoneNumber, userInput, f);
    if f.readFails || sessionId !in store {
      assert s.menuLevel == Main && !s.isAuthenticated;
    }
  }

  /** As written, a turn on a found session changes no row except one stored under the id "undefined". */
  lemma StoredRowsFrozenAsWritten(store: map<string, Session>, sessionId: string, phoneNumber: string,
                                  userInput: string, f: Faults, env: Lookups)
    requires !f.readFails && sessionId in store
    ensures var after := TurnAsWritten(store, sessionId, phoneNumber, userInput, f, env).store;
      after.Keys == store.Keys && forall k :: k in store && k != UndefinedId ==> after[k] == store[k]
  {
  }

  /**
   * The two readings part on a stored, logged-in session at 'main': choosing '1' opens the
   * dashboard when the row is read under its field names, and shows the welcome menu as written.
   */
  lemma StoredLoginIgnoredAsWritten(store: map<string, Session>, sessionId: string, phoneNumber: string, env: Lookups)
    requires WellFormed(store) && sessionId in store
    requires store[sessionId].menuLevel == Main && store[sessionId].isAuthenticated
    ensures Turn(store, sessionId, phoneNumber, "1", NoFaults, env).response.nextMenu == Some(Dashboard)
    ensures TurnAsWritten(store, sessionId, phoneNumber, "1", NoFaults, env).response == Welcome
  {
    DashboardPicked(store, sessionId, phoneNumber, env);
  }

  /* ---------------------------------------------------------------- the engine */

  class UssdEngine {
    var sessions: map<string, Session>

    ghost predicate Valid()
      reads this
    {
      WellFormed(sessions)
    }

    constructor ()
      ensures sessions == map[] && Valid()
    {
      sessions := map[];
    }

    /** `getSession`: the stored session, or nothing when the read fails or finds no row. */
    function GetSession(sessionId: string, readFails: bool): (r: Option<Session>)
      reads this
      ensures r.Some? <==> !readFails && sessionId in sessions
      ensures r.Some? ==> r.value == sessions[sessionId]
    {
      if !readFails && sessionId in sessions then Some(sessions[sessionId]) else None
    }

    /** `createSession`: the fresh session is returned whether or not its insert succeeds. */
    method CreateSession(sessionId: string, phoneNumber: string, insertFails: bool) returns (s: Session)
      requires Valid()
      modifies this
      ensures Valid() && s == Fresh(sessionId, phoneNumber)
      ensures sessions == if !insertFails && sessionId !in old(sessions) then old(sessions)[sessionId := s] else old(sessions)
    {
      s := Session(sessionId, phoneNumber, Main, "", false, None, None, Context(None, None));
      if !insertFails && sessionId !in sessions {
        sessions := sessions[sessionId := s];
      }
    }

    /** `updateSession`: the session is written over its row and returned unchanged. */
    method UpdateSession(s: Session, updateFails: bool) returns (r: Session)
      requires Valid() && (s.isAuthenticated ==> s.userId.Some?)
      modifies this
      ensures Valid() && r == s
      ensures sessions == Put(old(sessions), s, updateFails)
    {
      if !updateFails && s.sessionId in sessions {
        var row := sessions[s.sessionId];
        var written := s;
        if s.userId.None? {
          written := written.(userId := row.userId);
        }
        if s.groupId.None? {
          written := written.(groupId := row.groupId);
        }
        sessions := sessions[s.sessionId := written];
      }
      r := s;
    }

    /** `processAuthMenu`: collects the phone number, then the PIN, and logs the caller in. */
    method ProcessAuthMenu(s: Session, accounts: map<string, string>, updateFails: bool) returns (r: UssdResponse)
      requires Valid() && (s.isAuthenticated ==> s.userId.Some?)
      modifies this
      ensures Valid()
      ensures r == AuthStep(s, accounts).response
      ensures sessions == (if AuthStep(s, accounts).session == s then old(sessions) else Put(old(sessions), AuthStep(s, accounts).session, updateFails))
    {
      var input := Trim(s.userInput);
      if !Filled(s.context.phoneNumber) {
        r := CollectPhone(s, input, updateFails);
      } else if !Filled(s.context.pin) {
        r := CollectPin(s, input, accounts, updateFails);
      } else {
        r := InvalidInput;
      }
    }

    /** The phone-number branch of `processAuthMenu`: a valid number is written to the session. */
    method CollectPhone(s: Session, input: string, updateFails: bool) returns (r: UssdResponse)
      requires Valid() && (s.isAuthenticated ==> s.userId.Some?) && !Filled(s.context.phoneNumber)
      modifies this
      ensures Valid()
      ensures r == PhoneStage(s, input).response
      ensures sessions == (if PhoneStage(s, input).session == s then old(sessions) else Put(old(sessions), PhoneStage(s, input).session, updateFails))
    {
      if IsValidPhoneNumber(input) {
        var session := s.(context := s.context.(phoneNumber := Some(input)));
        session := UpdateSession(session, updateFails);
        return Continue(Fixed(PinPrompt), Auth);
      }
      return Continue(Fixed(PhoneRetry), Auth);
    }

    /**
     * The PIN branch of `processAuthMenu`: a six-digit PIN is written to the session, then the
     * number is looked up and, when a user holds it, the logged-in session is written too.
     */
    method CollectPin(s: Session, input: string, accounts: map<string, string>, updateFails: bool) returns (r: UssdResponse)
      requires Valid() && (s.isAuthenticated ==> s.userId.Some?) && s.context.phoneNumber.Some? && !Filled(s.context.pin)
      modifies this
      ensures Valid()
      ensures r == PinStage(s, input, accounts).response
      ensures sessions == (if PinStage(s, input, accounts).session == s then old(sessions) else Put(old(sessions), PinStage(s, input, accounts).session, updateFails))
    {
      if !IsValidPin(input) {
        return Continue(Fixed(PinRetry), Auth);
      }
      var session := s.(context := s.context.(pin := Some(input)));
      var first := session;
      session := UpdateSession(session, updateFails);
      var phone := session.context.phoneNumber.value;
      if phone !in accounts {
        return Continue(Fixed(BadCredentials), Auth);
      }
      session := session.(isAuthenticated := true, userId := Some(accounts[phone]), menuLevel := Main);
      PutTwice(old(sessions), first, session, updateFails);
      session := UpdateSession(session, updateFails);
      r := Continue(Fixed(WelcomeBack), Main);
    }

    /** The numbered lines a view appends with `message +=`, one per item. */
    static method NumberLines(texts: seq<string>) returns (lines: string)
      ensures lines == Listing(texts)
    {
      lines := "";
      var i := 0;
      while i < |texts|
        invariant 0 <= i <= |texts|
        invariant lines == ListingFrom(1, texts[..i])
      {
        ListingSnoc(1, texts[..i], texts[i]);
        assert texts[..i + 1] == texts[..i] + [texts[i]];
        lines := lines + NumberedLine(i + 1, texts[i]);
        i := i + 1;
      }
      assert texts[..i] == texts;
    }

    /** `showUserSavings`' accumulation of `totalSavings`. */
    static method TotalSavings(contributions: seq<Entry>) returns (total: real)
      ensures total == CompletedSum(contributions)
    {
      total := 0.0;
      var i := 0;
      while i < |contributions|
        invariant 0 <= i <= |contributions|
        invariant total == CompletedSum(contributions[..i])
      {
        assert contributions[..i + 1][..i] == contributions[..i];
        if contributions[i].status == "completed" {
          total := total + contributions[i].amount;
        }
        i := i + 1;
      }
      assert contributions[..i] == contributions;
    }

    static method ShowUserGroups(userId: Option<string>, groups: Option<seq<string>>) returns (r: UssdResponse)
      ensures r == GroupsView(userId, groups)
    {
      if !Filled(userId) {
        return LoginFirst;
      }
      if groups.None? {
        return Continue(Fixed(GroupsError), Groups);
      }
      if |groups.value| == 0 {
        return Continue(Fixed(NoGroups), Groups);
      }
      var lines := NumberLines(groups.value);
      r := Continue(Listed(GroupsHeader, lines, GroupsFooter), Groups);
    }

    static method ShowUserSavings(userId: Option<string>, contributions: Option<seq<Entry>>, format: real -> string) returns (r: UssdResponse)
      ensures r == SavingsView(userId, contributions, format)
    {
      if !Filled(userId) {
        return LoginFirst;
      }
      if contributions.None? {
        return Continue(Fixed(SavingsError), Savings);
      }
      if |contributions.value| == 0 {
        return Continue(Fixed(NoSavings), Savings);
      }
      var total := TotalSavings(contributions.value);
      r := Continue(Total(format(total)), Savings);
    }

    static method ShowUserLoans(userId: Option<string>, loans: Option<seq<Entry>>, format: real -> string) returns (r: UssdResponse)
      ensures r == LoansView(userId, loans, format)
    {
      if !Filled(userId) {
        return LoginFirst;
      }
      if loans.None? {
        return Continue(Fixed(LoansError), Loans);
      }
      if |loans.value| == 0 {
        return Continue(Fixed(NoLoans), Loans);
      }
      var lines := NumberLines(EntryTexts(format, loans.value));
      r := Continue(Listed(LoansHeader, lines, LoansFooter), Loans);
    }

    static method ShowUserContributions(userId: Option<string>, contributions: Option<seq<Entry>>, format: real -> string) returns (r: UssdResponse)
      ensures r == ContributionsView(userId, contributions, format)
    {
      if !Filled(userId) {
        return LoginFirst;
      }
      if contributions.None? {
        return Continue(Fixed(ContributionsError), Contributions);
      }
      if |contributions.value| == 0 {
        return Continue(Fixed(NoContributions), Contributions);
      }
      var lines := NumberLines(EntryTexts(format, Take(contributions.value, 5)));
      r := Continue(Listed(ContributionsHeader, lines, ContributionsFooter), Contributions);
    }

    static method ShowUserEscrowTransactions(userId: Option<string>, escrow: Option<seq<Entry>>, format: real -> string) returns (r: UssdResponse)
      ensures r == EscrowView(userId, escrow, format)
    {
      if !Filled(userId) {
        return LoginFirst;
      }
      if escrow.None? {
        return Continue(Fixed(EscrowError), Escrow);
      }
      if |escrow.value| == 0 {
        return Continue(Fixed(NoEscrow), Escrow);
      }
      var lines := NumberLines(EntryTexts(format, Take(escrow.value, 5)));
      r := Continue(Listed(EscrowHeader, lines, EscrowFooter), Escrow);
    }

    static method ShowUserComplaints(userId: Option<string>, complaints: Option<seq<ComplaintEntry>>) returns (r: UssdResponse)
      ensures r == ComplaintsView(userId, complaints)
    {
      if !Filled(userId) {
        return LoginFirst;
      }
      if complaints.None? {
        return Continue(Fixed(ComplaintsError), Complaints);
      }
      if |complaints.value| == 0 {
        return Continue(Fixed(NoComplaints), Complaints);
      }
      var shown := if |complaints.value| <= 5 then complaints.value else complaints.value[..5];
      var lines := NumberLines(ComplaintTexts(shown));
      r := Continue(Listed(ComplaintsHeader, lines, ComplaintsFooter), Complaints);
    }

    /** `processUSSDRequest`: one turn of the dialog. */
    method ProcessUssdRequest(sessionId: string, phoneNumber: string, userInput: string, f: Faults, env: Lookups)
      returns (r: UssdResponse)
      requires Valid()
      modifies this
      ensures Valid()
      ensures sessions == TurnStore(old(sessions), sessionId, phoneNumber, userInput, f, env.accounts)
      ensures r == TurnResponse(old(sessions), sessionId, phoneNumber, userInput, f, env)
    {
      var loaded := GetSession(sessionId, f.readFails);
      var session: Session;
      if loaded.None? {
        session := CreateSession(sessionId, phoneNumber, f.insertFails);
      } else {
        session := loaded.value;
      }
      session := session.(userInput := userInput);
      session := UpdateSession(session, f.updateFails);
      assert sessions == Prepared(old(sessions), sessionId, phoneNumber, userInput, f);
      if f.crash {
        return Sorry;
      }
      if session.menuLevel == Auth {
        r := ProcessAuthMenu(session, env.accounts, f.updateFails);
        return;
      }
      var action := Route(session.menuLevel, session.isAuthenticated, Key(Trim(session.userInput)));
      r := Dispatch(action, session.userId, env);
    }

    /** The menu handlers' answer: a literal response, or the list view they call. */
    static method Dispatch(action: Action, userId: Option<string>, env: Lookups) returns (r: UssdResponse)
      ensures r == Perform(action, userId, env)
    {
      match action {
        case Say(response) => r := response;
        case ShowGroups => r := ShowUserGroups(userId, env.groups);
        case ShowSavings => r := ShowUserSavings(userId, env.contributions, env.format);
        case ShowLoans => r := ShowUserLoans(userId, env.loans, env.format);
        case ShowContributions => r := ShowUserContributions(userId, env.contributions, env.format);
        case ShowEscrow => r := ShowUserEscrowTransactions(userId, env.escrow, env.format);
        case ShowComplaints => r := ShowUserComplaints(userId, env.complaints);
      }
    }
  }
}
