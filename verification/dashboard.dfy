/** The dashboard (src/app/page.tsx): the static workflow catalog, the recent-activity
    window fed by an initial load and by insert events, and the selected catalog entry
    whose trigger form is open. */
module Dashboard {
  import opened Base
  import opened Types

  /** The number of runs the window keeps, and the row limit of its initial query. */
  const FeedLimit := 5

  const EmptyActivityText := "No recent activity. Trigger a workflow to get started!"

  /** The insert callback's update: `[run, ...current].slice(0, 5)`. The new run comes
      first, then the old window's first entries, and at most five in all. */
  function PushRecent(run: WorkflowRun, current: seq<WorkflowRun>): (r: seq<WorkflowRun>)
    ensures |r| == Min(FeedLimit, |current| + 1)
    ensures r[0] == run
    ensures r[1..] == current[..|r| - 1]
  {
    ([run] + current)[..Min(FeedLimit, |current| + 1)]
  }

  /** The window after the insert events `runs`, in arrival order, starting from `current`. */
  function InsertAll(current: seq<WorkflowRun>, runs: seq<WorkflowRun>): seq<WorkflowRun>
    decreases |runs|
  {
    if runs == [] then current
    else PushRecent(runs[|runs| - 1], InsertAll(current, runs[..|runs| - 1]))
  }

  /** Whatever the initial load returned, inserts never grow the window beyond five
      entries or beyond its initial length, whichever is larger. */
  lemma InsertAllBounded(current: seq<WorkflowRun>, runs: seq<WorkflowRun>)
    ensures |InsertAll(current, runs)| <= Max(FeedLimit, |current|)
  {
  }

  /** After an initial load of at most five runs and any `k` insert events, the window is
      the most recent `min(5, initial + k)` runs, newest first: the inserted runs in reverse
      arrival order, followed by the loaded ones. */
  lemma {:induction false} InsertAllIsNewestFirst(current: seq<WorkflowRun>, runs: seq<WorkflowRun>)
    requires |current| <= FeedLimit
    ensures |InsertAll(current, runs)| == Min(FeedLimit, |current| + |runs|)
    ensures InsertAll(current, runs) == (Reverse(runs) + current)[..Min(FeedLimit, |current| + |runs|)]
  {
    if runs == [] {
      assert Reverse(runs) + current == current;
    } else {
      var n := |runs| - 1;
      var pre := runs[..n];
      var r := runs[n];
      InsertAllIsNewestFirst(current, pre);
      var a := Reverse(pre) + current;
      var m := Min(FeedLimit, |current| + n);
      var k := Min(FeedLimit, |current| + |runs|);
      assert InsertAll(current, pre) == a[..m];
      assert Reverse(runs) == [r] + Reverse(pre);
      assert Reverse(runs) + current == [r] + a;
      assert InsertAll(current, runs) == ([r] + a[..m])[..k];
      assert ([r] + a[..m])[..k] == ([r] + a)[..k];
    }
  }

  /** What the Recent Activity panel lists: the empty-state text, or one workflow title per
      run in the window's order. */
  datatype ActivityPanel = EmptyState(text: string) | Entries(titles: seq<string>)

  function ActivityView(recent: seq<WorkflowRun>): (v: ActivityPanel)
    ensures v.EmptyState? <==> recent == []
    ensures v.EmptyState? ==> v.text == EmptyActivityText
    ensures v.Entries? ==> |v.titles| == |recent| && forall i :: 0 <= i < |recent| ==> v.titles[i] == recent[i].workflowTitle
  {
    if |recent| > 0 then Entries(seq(|recent|, i requires 0 <= i < |recent| => recent[i].workflowTitle))
    else EmptyState(EmptyActivityText)
  }

  /** The static catalog, in display order. */
  const Services: seq<Service> := [
    Service("Customer Communication", "Automate emails, SMS, and support ticket responses.", [
      InputField("email", "Recipient Email", Email, Some("customer@example.com"), Some("lead@example.com"), None),
      InputField("subject", "Email Subject", Text, Some("Following up on your inquiry"), Some("Quick Question"), None),
      InputField("message", "Message", TextArea, Some("Enter your personalized message here..."),
            Some("Hi there, just wanted to follow up on our recent conversation."), None)]),
    Service("Social Media Management", "Schedule posts, monitor mentions, and analyze engagement.", [
      InputField("platform", "Platform", Select, None, Some("LinkedIn"), Some(["X", "LinkedIn", "Instagram"])),
      InputField("content", "Post Content", TextArea, Some("What's on your mind?"),
            Some("Excited to share our latest blog post on automation trends!"), None)]),
    Service("Lead Generation & CRM Sync", "Capture leads from forms and sync with your CRM.", [
      InputField("fullName", "Full Name", Text, Some("Jane Doe"), None, None),
      InputField("email", "Email Address", Email, Some("jane.doe@company.com"), None, None),
      InputField("company", "Company Name", Text, Some("Innovate Inc."), None, None)]),
    Service("E-Commerce Automation", "Manage abandoned carts, orders, and inventory.", [
      InputField("action", "Automation Type", Select, None, Some("Abandoned Cart Recovery"),
            Some(["Abandoned Cart Recovery", "Order Confirmation"])),
      InputField("customerEmail", "Customer Email", Email, Some("shopper@example.com"), None, None),
      InputField("orderId", "Order ID", Text, Some("ORD-12345"), None, None)]),
    Service("Financial Automation", "Generate invoices, track payments, and manage expenses.", [
      InputField("clientEmail", "Client Email", Email, Some("client@business.com"), None, None),
      InputField("invoiceNumber", "Invoice Number", Text, Some("INV-2025-001"), None, None),
      InputField("amount", "Amount (USD)", Number, Some("1500.00"), None, None)]),
    Service("Team Coordination", "Assign tasks, send project updates, and streamline comms.", [
      InputField("projectName", "Project Name", Text, Some("Q3 Marketing Campaign"), None, None),
      InputField("taskName", "Task Description", Text, Some("Draft initial ad copy"), None, None),
      InputField("assigneeEmail", "Assignee Email", Email, Some("team-member@workflowhub.com"), None, None)]),
    Service("Content Creation", "Automate content drafting, formatting, and distribution.", [
      InputField("topic", "Blog Post Topic", Text, Some("The Future of AI in Business"), None, None),
      InputField("keywords", "SEO Keywords", Text, Some("AI, business, automation, future"), None, None)]),
    Service("Feedback Analysis", "Collect and analyze customer feedback automatically.", [
      InputField("feedbackText", "Customer Feedback", TextArea,
            Some("Enter customer review or survey response here..."), None, None)])
  ]

  ghost predicate Distinct(s: seq<string>)
  {
    forall i, j :: 0 <= i < j < |s| ==> s[i] != s[j]
  }

  /** The catalog has eight entries; their titles, used as list keys, are pairwise
      distinct; and within each entry's form the field names are pairwise distinct. */
  lemma CatalogWellFormed()
    ensures |Services| == 8
    ensures Distinct(seq(|Services|, i requires 0 <= i < |Services| => Services[i].title))
    ensures forall s :: s in Services ==> Distinct(FieldNames(s.inputFields))
  {
  }

  class DashboardPage {
    var recent: seq<WorkflowRun>
    var channelOpen: bool
    var selected: Option<Service>

    /** The `useState` initial values: an empty window, no channel yet, no open form. */
    constructor ()
      ensures recent == [] && !channelOpen && selected.None?
    {
      recent, channelOpen, selected := [], false, None;
    }

    /** One run of the recent-activity effect, which re-runs whenever `user` changes (after
        the previous run's cleanup, `RemoveChannel`): the last five runs are loaded (only
        when there is a user; `loaded` is what the query returned) and a fresh insert channel
        is opened. A successful load replaces the window; a failed one, or no load, leaves it. */
    method RunActivityEffect(user: Option<User>, loaded: Result<seq<WorkflowRun>, BackendError>)
      modifies this`recent, this`channelOpen
      ensures channelOpen
      ensures user.Some? && loaded.Ok? ==> recent == loaded.value
      ensures user.None? || loaded.Err? ==> recent == old(recent)
    {
      if user.Some? {
        match loaded {
          case Ok(rows) => recent := rows;
          case Err(_) =>
        }
      }
      channelOpen := true;
    }

    /** The insert callback; it fires only while the channel is open. */
    method OnInsert(run: WorkflowRun)
      requires channelOpen
      modifies this`recent
      ensures recent == PushRecent(run, old(recent))
    {
      recent := ([run] + recent)[..Min(FeedLimit, |recent| + 1)];
    }

    /** The effect's cleanup: the channel is removed and no insert reaches the window. */
    method RemoveChannel()
      modifies this`channelOpen
      ensures !channelOpen
    {
      channelOpen := false;
    }

    /** A click on a catalog entry opens its trigger form. */
    method SelectService(s: Service)
      modifies this`selected
      ensures selected == Some(s)
    {
      selected := Some(s);
    }

    /** The form's `onClose`: the form is unmounted and its values discarded. */
    method CloseTriggerForm()
      modifies this`selected
      ensures selected.None?
    {
      selected := None;
    }
  }
}
