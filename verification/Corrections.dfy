/** Editing, voiding and applying credits: a versioned store of documents beside an append-only
    journal, where every edit reverses what was live and reposts. */
module Corrections {
  import opened Wrappers
  import opened Documents
  import opened Journal
  import opened OpenItems
  import opened Overuse
  import opened Postings
  import opened Aging

  /** What posting knows of the world besides the document. */
  type Context = nat

  datatype Posting = NonPosting | Posted(entry: JournalEntry) | PostRefused

  datatype Reposting = Post(ctx: Context) | VoidIt(reason: string) | Keep

  datatype BooksError =
    | UnknownDocument(id: string) | AlreadyVoided(id: string) | VoidThroughEdit | KindChanged(id: string)
    | ContactTypeChanged(id: string) | NumberChanged(id: string) | NotPrepared | NotAccepted(id: string)
    | HasApplications(id: string, applied: int) | BadApplication(id: string)
    | PeriodClosed(through: int) | PostingRefused | EntryRefused

  datatype Revision = Revision(document: Document, version: nat, reversals: seq<nat>, entry: Option<nat>)

  /** Dated in an open period. */
  predicate Unlocked(locked: Option<int>, date: int) { locked.None? || date > locked.value }

  /** What the posting rules must be like: an entry is derived from its document and is not a
      reversal, and a credit posts the same whatever it is applied to. */
  ghost predicate PostsSoundly(post: (Document, Context) -> Posting) {
    && (forall doc, ctx :: post(doc, ctx).Posted? ==>
        post(doc, ctx).entry.sourceId == doc.id && post(doc, ctx).entry.reversalOf.None?)
    && (forall doc: Document, ctx, apps :: doc.kind.CreditMemo? || doc.kind.VendorCredit? ==>
          post(doc.(applications := apps), ctx) == post(doc, ctx))
  }

  // ---- In sync ----

  /** The journal holds for a document exactly what `doc` posts: one entry with the same
      effect, or nothing. */
  predicate InSync(entries: Entries, doc: Document, ctx: Context, post: (Document, Context) -> Posting) {
    var live := LiveEntries(entries, doc.id);
    if !doc.isVoided && post(doc, ctx).Posted? then |live| == 1 && SamePosting(entries[live[0]], post(doc, ctx).entry)
    else live == []
  }

  /** What `doc` posts to an account. */
  function Expected(doc: Document, ctx: Context, post: (Document, Context) -> Posting, account: string): int {
    if !doc.isVoided && post(doc, ctx).Posted? then EntryNet(post(doc, ctx).entry, account) else 0
  }

  lemma {:induction false} LiveNetIsSum(entries: Entries, id: string, account: string, n: nat)
    requires n <= |entries|
    ensures LiveFrom(entries, id, n) == [] ==> LiveNet(entries, id, account, n) == 0
    ensures |LiveFrom(entries, id, n)| == 1 ==>
        LiveNet(entries, id, account, n) == EntryNet(entries[LiveFrom(entries, id, n)[0]], account)
  {
    if n > 0 { LiveNetIsSum(entries, id, account, n - 1); }
  }

  /** A document in sync has posted, account by account, what its newest version posts. */
  lemma SyncedNet(entries: Entries, doc: Document, ctx: Context, post: (Document, Context) -> Posting, account: string)
    requires Cancelled(entries) && InSync(entries, doc, ctx, post)
    ensures DocNet(entries, doc.id, account, |entries|) == Expected(doc, ctx, post, account)
  {
    assert CancelledFor(entries, doc.id, account);
    LiveNetIsSum(entries, doc.id, account, |entries|);
  }

  /** What the first `n` entries come to, document by document. */
  function DocNetsTo(entries: Entries, ids: seq<string>, account: string, n: nat, m: nat): int
    requires n <= |entries| && m <= |ids|
  {
    if m == 0 then 0 else DocNetsTo(entries, ids, account, n, m - 1) + DocNet(entries, ids[m - 1], account, n)
  }

  predicate Distinct(ids: seq<string>) { forall i, j :: 0 <= i < j < |ids| ==> ids[i] != ids[j] }

  lemma {:induction false} NetsOneMore(entries: Entries, ids: seq<string>, account: string, n: nat, m: nat)
    requires 0 < n <= |entries| && m <= |ids| && Distinct(ids)
    ensures DocNetsTo(entries, ids, account, n, m)
         == DocNetsTo(entries, ids, account, n - 1, m)
            + (if entries[n - 1].sourceId in ids[..m] then EntryNet(entries[n - 1], account) else 0)
  {
    if m > 0 {
      NetsOneMore(entries, ids, account, n, m - 1);
      assert ids[..m] == ids[..m - 1] + [ids[m - 1]];
    }
  }

  lemma {:induction false} NetsOfNone(entries: Entries, ids: seq<string>, account: string, m: nat)
    requires m <= |ids|
    ensures DocNetsTo(entries, ids, account, 0, m) == 0
  {
    if m > 0 { NetsOfNone(entries, ids, account, m - 1); }
  }

  /** The journal is the sum of its documents. */
  lemma {:induction false} NetByDocument(entries: Entries, ids: seq<string>, account: string, n: nat)
    requires n <= |entries| && Distinct(ids) && forall i :: 0 <= i < n ==> entries[i].sourceId in ids
    ensures Net(entries, account, n) == DocNetsTo(entries, ids, account, n, |ids|)
  {
    if n == 0 {
      NetsOfNone(entries, ids, account, |ids|);
    } else {
      NetByDocument(entries, ids, account, n - 1);
      NetsOneMore(entries, ids, account, n, |ids|);
      assert ids[..|ids|] == ids;
    }
  }

  // ---- The store ----

  /** The versions of a document, the newest apart. */
  datatype History = History(older: seq<Document>, newest: Document)

  type Versions = map<string, History>

  ghost predicate Stored(order: seq<string>, versions: Versions) {
    && Distinct(order)
    && (forall id :: id in versions <==> id in order)
    && (forall id :: id in versions ==> versions[id].newest.id == id)
  }

  /** The context a document's newest posting version was posted in, and whether it was saved by
      a create whose entry the journal then refused. */
  datatype Mark = Mark(ctx: Context, unposted: bool)

  type Marks = map<string, Mark>

  /** A repost is in its own context, a void leaves the last one, and keeping the entry leaves the mark. */
  function MarkAfter(mark: Mark, reposting: Reposting): Mark {
    match reposting
    case Post(ctx) => Mark(ctx, false)
    case VoidIt(_) => Mark(mark.ctx, false)
    case Keep => mark
  }

  /** Reversals point back and cancel, and every entry is balanced and comes from a saved document. */
  ghost predicate Sound(entries: Entries, versions: Versions) {
    && PointsBack(entries) && Cancelled(entries)
    && (forall i :: 0 <= i < |entries| ==> entries[i].sourceId in versions && IsBalanced(entries[i]))
  }

  /** A voided version is the document itself, voided, with the reason in front of what its memo said. */
  lemma VoidedSays(doc: Document, reason: string)
    ensures var now := VoidedCopy(doc, reason);
            && now.isVoided && now.(isVoided := doc.isVoided, memo := doc.memo) == doc
            && (doc.memo == None || doc.memo == Some("") ==> now.memo == Some("Voided: " + reason))
            && (doc.memo.Some? && doc.memo.value != "" ==>
                  now.memo == Some("Voided: " + reason + (". " + doc.memo.value)))
  {
    assert "Voided: " + reason + "" == "Voided: " + reason;
  }

  /** A document is in sync, or its first entry was refused and nothing of it is live. */
  ghost predicate Synced(entries: Entries, doc: Document, mark: Mark, post: (Document, Context) -> Posting) {
    if mark.unposted then LiveEntries(entries, doc.id) == [] else InSync(entries, doc, mark.ctx, post)
  }

  /** Every document but `except` is. */
  ghost predicate AllSynced(entries: Entries, versions: Versions, marks: Marks, post: (Document, Context) -> Posting,
                            except: Option<string>)
    requires marks.Keys == versions.Keys
  {
    forall id {:trigger SyncedAt(entries, versions, marks, post, id)} ::
      id in versions && except != Some(id) ==> SyncedAt(entries, versions, marks, post, id)
  }

  ghost predicate SyncedAt(entries: Entries, versions: Versions, marks: Marks, post: (Document, Context) -> Posting,
                           id: string)
    requires id in versions && id in marks
  {
    Synced(entries, versions[id].newest, marks[id], post)
  }

  ghost predicate WellShaped(order: seq<string>, versions: Versions, entries: Entries, marks: Marks) {
    Stored(order, versions) && Sound(entries, versions) && marks.Keys == versions.Keys
  }

  /** `now` continues `was`, and every entry added is dated in an open period. */
  ghost predicate Appended(was: Entries, now: Entries, locked: Option<int>) {
    && |was| <= |now| && now[..|was|] == was
    && (forall i :: |was| <= i < |now| ==> Unlocked(locked, now[i].date))
  }

  lemma AppendedOne(was: Entries, mid: Entries, e: JournalEntry, locked: Option<int>)
    requires Appended(was, mid, locked) && Unlocked(locked, e.date)
    ensures Appended(was, mid + [e], locked)
  {
    assert (mid + [e])[..|was|] == mid[..|was|];
  }

  lemma OthersLiveNext(was: Entries, mid: Entries, now: Entries, id: string)
    requires OthersLive(was, mid, id) && OthersLive(mid, now, id)
    ensures OthersLive(was, now, id)
  {}

  /** What reversing a document's live entries one by one has done after `k` of them. */
  ghost predicate Reversing(was: Entries, now: Entries, versions: Versions, locked: Option<int>, id: string,
                            live: seq<nat>, k: nat)
    requires k <= |live|
  {
    && Sound(now, versions) && Appended(was, now, locked) && OthersLive(was, now, id)
    && LiveEntries(now, id) == live[k..]
  }

  lemma ReversingNext(was: Entries, mid: Entries, versions: Versions, locked: Option<int>, id: string, live: seq<nat>,
                      k: nat, e: JournalEntry)
    requires k < |live| && Reversing(was, mid, versions, locked, id, live, k)
    requires live == LiveEntries(was, id)
    requires e.sourceId == id && e.reversalOf == Some(live[k]) && live[k] < |mid| &&
        e.lines == Swapped(mid[live[k]].lines)
    requires IsBalanced(e) && Unlocked(locked, e.date) && id in versions
    ensures Reversing(was, mid + [e], versions, locked, id, live, k + 1)
  {
    assert live[k..][0] == live[k] && live[k..][1..] == live[k + 1..];
    PostedReversal(mid, e, e.date);
    AppendedOne(was, mid, e, locked);
    OthersLiveNext(was, mid, mid + [e], id);
  }

  lemma LiveIsEntry(was: Entries, mid: Entries, versions: Versions, locked: Option<int>, id: string, live: seq<nat>,
                    k: nat)
    requires k < |live| && Reversing(was, mid, versions, locked, id, live, k) && live == LiveEntries(was, id)
    ensures live[k] < |mid| && mid[live[k]].sourceId == id && IsBalanced(mid[live[k]])
  {
    assert live[k..][0] == live[k];
    assert live[k] in LiveEntries(mid, id);
  }

  /** The new entry of a document with nothing live. */
  lemma PostedNew(was: Entries, mid: Entries, versions: Versions, locked: Option<int>, id: string, e: JournalEntry)
    requires Sound(mid, versions) && Appended(was, mid, locked) && OthersLive(was, mid, id) &&
        LiveEntries(mid, id) == []
    requires e.sourceId == id && e.reversalOf.None? && id in versions && IsBalanced(e) && Unlocked(locked, e.date)
    ensures Sound(mid + [e], versions) && Appended(was, mid + [e], locked) && OthersLive(was, mid + [e], id)
    ensures LiveEntries(mid + [e], id) == [|mid|]
  {
    PostedFresh(mid, e);
    AppendedOne(was, mid, e, locked);
    OthersLiveNext(was, mid, mid + [e], id);
  }

  /** The newest version of every document. */
  function CurrentDocs(order: seq<string>, versions: Versions): (docs: seq<Document>)
    requires forall i :: 0 <= i < |order| ==> order[i] in versions
    ensures |docs| == |order|
  {
    seq(|order|, i requires 0 <= i < |order| => versions[order[i]].newest)
  }

  function Saved(versions: Versions, doc: Document): Versions
    requires doc.id in versions
  {
    versions[doc.id := History(versions[doc.id].older + [versions[doc.id].newest], doc)]
  }

  lemma CurrentIds(order: seq<string>, versions: Versions)
    requires Stored(order, versions)
    ensures DistinctIds(CurrentDocs(order, versions))
    ensures forall i :: 0 <= i < |order| ==> CurrentDocs(order, versions)[i].id == order[i]
  {
    forall i | 0 <= i < |order| ensures CurrentDocs(order, versions)[i].id == order[i] { assert order[i] in order; }
  }

  ghost function IndexOf(order: seq<string>, id: string): (k: nat)
    requires id in order
    ensures k < |order| && order[k] == id
  {
    var k :| 0 <= k < |order| && order[k] == id; k
  }

  /** Saving a new version replaces the document in place. */
  lemma CurrentAfter(order: seq<string>, versions: Versions, doc: Document, k: nat)
    requires Stored(order, versions) && k < |order| && order[k] == doc.id && doc.id in versions
    ensures Stored(order, Saved(versions, doc))
    ensures CurrentDocs(order, Saved(versions, doc)) == CurrentDocs(order, versions)[k := doc]
  {
    var now := Saved(versions, doc);
    forall id ensures id in now <==> id in order {}
  }

  lemma SyncedStays(was: Entries, now: Entries, doc: Document, mark: Mark, post: (Document, Context) -> Posting)
    requires Synced(was, doc, mark, post) && LiveEntries(now, doc.id) == LiveEntries(was, doc.id)
    requires |was| <= |now| && now[..|was|] == was
    ensures Synced(now, doc, mark, post)
  {
    SameEntry(was, now, doc.id);
  }

  /** Synced documents stay synced when the journal changes for another, and the one saved is
      synced on its own account. */
  lemma SyncedAfter(was: Entries, now: Entries, order: seq<string>, versions: Versions, marks: Marks, doc: Document,
                    mark: Mark,
                    post: (Document, Context) -> Posting)
    requires Stored(order, versions) && marks.Keys == versions.Keys
    requires doc.id in versions && OthersLive(was, now, doc.id) && |was| <= |now| && now[..|was|] == was
    requires AllSynced(was, versions, marks, post, Some(doc.id)) && Synced(now, doc, mark, post)
    ensures marks[doc.id := mark].Keys == Saved(versions, doc).Keys
    ensures AllSynced(now, Saved(versions, doc), marks[doc.id := mark], post, None)
  {
    var saved, marks' := Saved(versions, doc), marks[doc.id := mark];
    assert marks'.Keys == versions.Keys == saved.Keys;
    forall id | id in saved ensures SyncedAt(now, saved, marks', post, id) {
      if id != doc.id {
        assert SyncedAt(was, versions, marks, post, id);
        SyncedStays(was, now, versions[id].newest, marks[id], post);
      }
    }
  }

  /** A new version that is in sync with the new journal leaves a valid store. */
  lemma RevisionValid(was: Entries, now: Entries, order: seq<string>, versions: Versions, marks: Marks, doc: Document,
                      mark: Mark,
                      post: (Document, Context) -> Posting)
    requires WellShaped(order, versions, was, marks) && doc.id in versions &&
        AllSynced(was, versions, marks, post, Some(doc.id))
    requires Sound(now, versions) && |was| <= |now| && now[..|was|] == was && OthersLive(was, now, doc.id)
    requires Synced(now, doc, mark, post)
    ensures WellShaped(order, Saved(versions, doc), now, marks[doc.id := mark])
    ensures AllSynced(now, Saved(versions, doc), marks[doc.id := mark], post, None)
  {
    SyncedAfter(was, now, order, versions, marks, doc, mark, post);
    CurrentAfter(order, versions, doc, IndexOf(order, doc.id));
  }

  /** A credit stays in sync when only its applications change. */
  lemma KeptSynced(entries: Entries, old': Document, doc: Document, mark: Mark, post: (Document, Context) -> Posting)
    requires PostsSoundly(post) && Synced(entries, old', mark, post)
    requires doc == old'.(applications := doc.applications) && (old'.kind.CreditMemo? || old'.kind.VendorCredit?)
    ensures Synced(entries, doc, mark, post)
  {
    assert post(old'.(applications := doc.applications), mark.ctx) == post(old', mark.ctx);
  }

  lemma SameEntry(was: Entries, now: Entries, id: string)
    requires |was| <= |now| && now[..|was|] == was
    ensures forall j :: 0 <= j < |LiveEntries(was, id)| ==> now[LiveEntries(was, id)[j]] == was[LiveEntries(was, id)[j]]
  {
    forall j | 0 <= j < |LiveEntries(was, id)| ensures now[LiveEntries(was, id)[j]] == was[LiveEntries(was, id)[j]] {
      assert now[..|was|][LiveEntries(was, id)[j]] == was[LiveEntries(was, id)[j]];
    }
  }

  /** The checks of `post_entry`. */
  predicate Postable(e: JournalEntry, locked: Option<int>, accepts: JournalEntry -> bool) {
    Unlocked(locked, e.date) && IsBalanced(e) && accepts(e)
  }

  /** The period and the chart let an entry be reversed. */
  predicate MayReverse(entries: Entries, locked: Option<int>, accepts: JournalEntry -> bool, i: nat,
                       reason: Option<string>)
    requires i < |entries|
  {
    Unlocked(locked, entries[i].date) && accepts(Reversal(entries[i], i, reason))
  }

  /** They let all that is live for `id` be reversed and what is posted instead be entered. */
  predicate MayReplace(entries: Entries, locked: Option<int>, accepts: JournalEntry -> bool, id: string,
                       reason: Option<string>, posting: Posting, version: nat) {
    && (forall k :: 0 <= k < |LiveEntries(entries, id)| ==>
          MayReverse(entries, locked, accepts, LiveEntries(entries, id)[k], reason))
    && (posting.Posted? ==> Postable(posting.entry.(sourceVersion := version), locked, accepts))
  }

  /** The one live entry already is what is posted. */
  predicate PostsTheSame(entries: Entries, id: string, posting: Posting) {
    var live := LiveEntries(entries, id);
    posting.Posted? && |live| == 1 && SamePosting(entries[live[0]], posting.entry)
  }

  /** The posting rules take the document, and the journal what comes of it. */
  predicate RepostAccepted(entries: Entries, locked: Option<int>, accepts: JournalEntry -> bool,
                           post: (Document, Context) -> Posting, doc: Document, version: nat, reposting: Reposting) {
    match reposting
    case Post(ctx) =>
      !post(doc, ctx).PostRefused? &&
      (PostsTheSame(entries, doc.id, post(doc, ctx)) ||
       MayReplace(entries, locked, accepts, doc.id, None, post(doc, ctx), version))
    case VoidIt(reason) => MayReplace(entries, locked, accepts, doc.id, Some(reason), NonPosting, version)
    case Keep => true
  }

  /** A reversal is refused for its date or by the chart, never for its balance. */
  lemma ReversalPostable(was: Entries, mid: Entries, locked: Option<int>, accepts: JournalEntry -> bool, i: nat,
                         reason: Option<string>)
    requires i < |was| <= |mid| && mid[..|was|] == was && IsBalanced(mid[i])
    ensures Postable(Reversal(mid[i], i, reason), locked, accepts) <==> MayReverse(was, locked, accepts, i, reason)
  {
    assert mid[..|was|][i] == mid[i];
    ReversedBalanced(mid[i], mid[i].date, i);
  }

  /** One more reversal: refused as `MayReverse` says, and otherwise entered. */
  lemma ReverseNext(was: Entries, mid: Entries, versions: Versions, locked: Option<int>,
                    accepts: JournalEntry -> bool, id: string, live: seq<nat>, k: nat, reason: Option<string>)
    requires k < |live| && live == LiveEntries(was, id) && id in versions
    requires Reversing(was, mid, versions, locked, id, live, k)
    ensures live[k] < |was| <= |mid|
    ensures var reversal := Reversal(mid[live[k]], live[k], reason);
      && (Postable(reversal, locked, accepts) <==> MayReverse(was, locked, accepts, live[k], reason))
      && (Postable(reversal, locked, accepts) ==>
            Reversing(was, mid + [reversal], versions, locked, id, live, k + 1))
  {
    LiveIsEntry(was, mid, versions, locked, id, live, k);
    ReversalPostable(was, mid, locked, accepts, live[k], reason);
    var reversal := Reversal(mid[live[k]], live[k], reason);
    if Postable(reversal, locked, accepts) { ReversingNext(was, mid, versions, locked, id, live, k, reversal); }
  }

  /** The first `k` live entries are reversed, as nothing refuses. */
  ghost predicate ReversedTo(was: Entries, now: Entries, versions: Versions, locked: Option<int>,
                             accepts: JournalEntry -> bool, id: string, live: seq<nat>, reason: Option<string>, k: nat)
    requires k <= |live|
  {
    && (forall j :: 0 <= j < |live| ==> live[j] < |was|)
    && Reversing(was, now, versions, locked, id, live, k)
    && now == was + Reversals(was, live, reason, k)
    && (forall j :: 0 <= j < k ==> MayReverse(was, locked, accepts, live[j], reason))
  }

  lemma ReversedOneMore(was: Entries, mid: Entries, versions: Versions, locked: Option<int>,
                        accepts: JournalEntry -> bool, id: string, live: seq<nat>, reason: Option<string>, k: nat)
    requires k < |live| && live == LiveEntries(was, id) && id in versions
    requires ReversedTo(was, mid, versions, locked, accepts, id, live, reason, k)
    ensures live[k] < |was| <= |mid|
    ensures var reversal := Reversal(mid[live[k]], live[k], reason);
      && (Postable(reversal, locked, accepts) <==> MayReverse(was, locked, accepts, live[k], reason))
      && (Postable(reversal, locked, accepts) ==>
            ReversedTo(was, mid + [reversal], versions, locked, accepts, id, live, reason, k + 1))
  {
    ReverseNext(was, mid, versions, locked, accepts, id, live, k, reason);
    ReversalsNext(was, mid, live, reason, k);
  }

  lemma ReversedNone(was: Entries, versions: Versions, locked: Option<int>, accepts: JournalEntry -> bool, id: string,
                     live: seq<nat>, reason: Option<string>)
    requires Sound(was, versions) && live == LiveEntries(was, id)
    ensures ReversedTo(was, was, versions, locked, accepts, id, live, reason, 0)
  {}

  lemma ReversedWhole(was: Entries, now: Entries, versions: Versions, locked: Option<int>,
                      accepts: JournalEntry -> bool, id: string, live: seq<nat>, reason: Option<string>)
    requires ReversedTo(was, now, versions, locked, accepts, id, live, reason, |live|)
    ensures Sound(now, versions) && Appended(was, now, locked) && OthersLive(was, now, id)
    ensures LiveEntries(now, id) == [] && now == was + Reversals(was, live, reason, |live|)
    ensures forall k :: 0 <= k < |live| ==> MayReverse(was, locked, accepts, live[k], reason)
  {}

  /** Reverses the live entry whose turn it is. */
  method ReverseOne(ghost was: Entries, entries: Entries, ghost versions: Versions, locked: Option<int>,
                    accepts: JournalEntry -> bool, id: string, live: seq<nat>, reason: Option<string>, k: nat)
    returns (now: Entries, ok: bool)
    requires k < |live| && live == LiveEntries(was, id) && id in versions
    requires ReversedTo(was, entries, versions, locked, accepts, id, live, reason, k)
    ensures live[k] < |was| && (ok <==> MayReverse(was, locked, accepts, live[k], reason))
    ensures ok ==> ReversedTo(was, now, versions, locked, accepts, id, live, reason, k + 1)
  {
    ReversedOneMore(was, entries, versions, locked, accepts, id, live, reason, k);
    var reversal := Reversal(entries[live[k]], live[k], reason);
    ok := Postable(reversal, locked, accepts);
    now := entries + [reversal];
  }

  /** Reverses every entry in `live`, on its own date, in a copy of the journal. */
  method ReverseAll(entries: Entries, ghost versions: Versions, locked: Option<int>, accepts: JournalEntry -> bool,
                    id: string, live: seq<nat>, reason: Option<string>)
    returns (now: Entries, reversals: seq<nat>, ok: bool)
    requires Sound(entries, versions) && id in versions && live == LiveEntries(entries, id)
    ensures ok ==> Sound(now, versions) && Appended(entries, now, locked) && OthersLive(entries, now, id)
    ensures ok ==> LiveEntries(now, id) == [] && |reversals| == |live|
    ensures ok ==> now == entries + Reversals(entries, live, reason, |live|)
    ensures ok <==> forall k :: 0 <= k < |live| ==> MayReverse(entries, locked, accepts, live[k], reason)
  {
    now, reversals, ok := entries, [], true;
    ReversedNone(entries, versions, locked, accepts, id, live, reason);
    for k := 0 to |live|
      invariant ReversedTo(entries, now, versions, locked, accepts, id, live, reason, k) && |reversals| == k
    {
      var at: nat := |now|;
      now, ok := ReverseOne(entries, now, versions, locked, accepts, id, live, reason, k);
      if !ok { return; }
      reversals := reversals + [at];
    }
    ReversedWhole(entries, now, versions, locked, accepts, id, live, reason);
    ok := true;
  }

  /** The chart takes every entry that is added. */
  predicate AllTaken(was: Entries, now: Entries, accepts: JournalEntry -> bool) {
    forall i :: |was| <= i < |now| ==> accepts(now[i])
  }

  lemma ReversalsTaken(was: Entries, live: seq<nat>, reason: Option<string>, locked: Option<int>,
                       accepts: JournalEntry -> bool, n: nat)
    requires n <= |live| && forall k :: 0 <= k < |live| ==> live[k] < |was|
    requires forall k :: 0 <= k < n ==> MayReverse(was, locked, accepts, live[k], reason)
    ensures AllTaken(was, was + Reversals(was, live, reason, n), accepts)
  {
    for m := 0 to n
      invariant AllTaken(was, was + Reversals(was, live, reason, m), accepts)
    {
      assert MayReverse(was, locked, accepts, live[m], reason);
      assert was + Reversals(was, live, reason, m + 1) ==
             was + Reversals(was, live, reason, m) + [Reversal(was[live[m]], live[m], reason)];
    }
  }

  lemma ReplacedTaken(was: Entries, now: Entries, locked: Option<int>, accepts: JournalEntry -> bool, id: string,
                      reason: Option<string>, posting: Posting, version: nat)
    requires MayReplace(was, locked, accepts, id, reason, posting, version)
    requires now == was + Reversals(was, LiveEntries(was, id), reason, |LiveEntries(was, id)|) +
                    (if posting.Posted? then [posting.entry.(sourceVersion := version)] else [])
    ensures AllTaken(was, now, accepts)
  {
    ReversalsTaken(was, LiveEntries(was, id), reason, locked, accepts, |LiveEntries(was, id)|);
  }

  /** What stands after a revision, and what it adds, told entry by entry. A repost leaves exactly one entry, with the
      date, memo, type, flag and lines of what is posted, or none; it adds nothing exactly when that stood already. A
      void leaves none. */
  ghost predicate Told(was: Entries, now: Entries, doc: Document, version: nat, reposting: Reposting,
                       post: (Document, Context) -> Posting) {
    match reposting
    case Keep => now == was
    case VoidIt(reason) => NoneStands(now, doc.id) && Restated(was, now, doc.id, Some(reason), None, version)
    case Post(ctx) =>
      var posted := if post(doc, ctx).Posted? then Some(post(doc, ctx).entry) else None;
      && StandsAs(now, doc.id, posted) && (now == was <==> StandsAs(was, doc.id, posted))
      && (now != was ==> Restated(was, now, doc.id, None, posted, version))
  }

  /** Of a document stands just what is posted, or nothing when nothing is. */
  ghost predicate StandsAs(entries: Entries, id: string, posted: Option<JournalEntry>) {
    if posted.Some? then OneStands(entries, id, posted.value) else NoneStands(entries, id)
  }

  /** The entry that already stood is kept. */
  lemma KeptTold(entries: Entries, doc: Document, ctx: Context, version: nat, post: (Document, Context) -> Posting)
    requires PostsTheSame(entries, doc.id, post(doc, ctx))
    ensures Told(entries, entries, doc, version, Post(ctx), post)
  {
    OneLiveStands(entries, doc.id, post(doc, ctx).entry);
  }

  /** What was live is reversed and what is posted instead, if anything, is entered. */
  lemma ReplacedTold(was: Entries, now: Entries, doc: Document, version: nat, reposting: Reposting,
                     post: (Document, Context) -> Posting)
    requires reposting.Post? ==>
      !PostsTheSame(was, doc.id, post(doc, reposting.ctx)) && InSync(now, doc, reposting.ctx, post) && !doc.isVoided
    requires reposting.VoidIt? ==> LiveEntries(now, doc.id) == []
    requires !reposting.Keep?
    requires var reason := if reposting.VoidIt? then Some(reposting.reason) else None;
             var posting := if reposting.Post? then post(doc, reposting.ctx) else NonPosting;
             now == was + Reversals(was, LiveEntries(was, doc.id), reason, |LiveEntries(was, doc.id)|) +
                    (if posting.Posted? then [posting.entry.(sourceVersion := version)] else [])
    ensures Told(was, now, doc, version, reposting, post)
  {
    NoneLiveStands(was, doc.id);
    NoneLiveStands(now, doc.id);
    if reposting.VoidIt? {
      RestatedBy(was, doc.id, Some(reposting.reason), None, version);
    } else {
      var posting := post(doc, reposting.ctx);
      RestatedBy(was, doc.id, None, if posting.Posted? then Some(posting.entry) else None, version);
      if posting.Posted? {
        OneLiveStands(was, doc.id, posting.entry);
        OneLiveStands(now, doc.id, posting.entry);
      }
    }
  }

  /** A synced document stands as its newest version posts in its last context. */
  ghost predicate Standing(entries: Entries, doc: Document, mark: Mark, post: (Document, Context) -> Posting) {
    StandsAs(entries, doc.id,
             if mark.unposted || doc.isVoided || !post(doc, mark.ctx).Posted? then None
             else Some(post(doc, mark.ctx).entry))
  }

  lemma SyncedStands(entries: Entries, doc: Document, mark: Mark, post: (Document, Context) -> Posting)
    requires Synced(entries, doc, mark, post)
    ensures Standing(entries, doc, mark, post)
  {
    NoneLiveStands(entries, doc.id);
    if !mark.unposted && !doc.isVoided && post(doc, mark.ctx).Posted? {
      OneLiveStands(entries, doc.id, post(doc, mark.ctx).entry);
    }
  }

  /** Every document stands so. */
  ghost predicate AllStanding(s: Snapshot, post: (Document, Context) -> Posting) {
    forall id :: id in s.versions && id in s.marks ==> Standing(s.entries, s.versions[id].newest, s.marks[id], post)
  }

  lemma AllStand(order: seq<string>, versions: Versions, entries: Entries, locked: Option<int>, marks: Marks,
                 post: (Document, Context) -> Posting)
    requires WellShaped(order, versions, entries, marks) && AllSynced(entries, versions, marks, post, None)
    ensures AllStanding(Snapshot(order, versions, entries, locked, marks), post)
  {
    forall id | id in versions && id in marks
      ensures Standing(entries, versions[id].newest, marks[id], post)
    {
      assert SyncedAt(entries, versions, marks, post, id);
      SyncedStands(entries, versions[id].newest, marks[id], post);
    }
  }

  /** What a reposting makes of the journal: afterwards exactly what the new version posts is live. */
  method Repost(entries: Entries, ghost versions: Versions, locked: Option<int>, accepts: JournalEntry -> bool,
                post: (Document, Context) -> Posting, doc: Document, version: nat, reposting: Reposting)
    returns (now: Entries, reversals: seq<nat>, entry: Option<nat>, error: Option<BooksError>)
    requires Sound(entries, versions) && doc.id in versions && PostsSoundly(post)
    requires reposting.VoidIt? ==> doc.isVoided
    requires reposting.Post? ==> !doc.isVoided
    ensures error.None? ==> Sound(now, versions) && Appended(entries, now, locked) && OthersLive(entries, now, doc.id)
    ensures error.None? && reposting.VoidIt? ==> LiveEntries(now, doc.id) == []
    ensures error.None? && reposting.Post? ==> InSync(now, doc, reposting.ctx, post)
    ensures error.None? && reposting.Keep? ==> now == entries
    ensures error.Some? ==> error.value.PostingRefused? || error.value.EntryRefused?
    ensures error.None? ==> AllTaken(entries, now, accepts) && Told(entries, now, doc, version, reposting, post)
    ensures error.None? <==> RepostAccepted(entries, locked, accepts, post, doc, version, reposting)
  {
    now, reversals, entry, error := entries, [], None, None;
    if !reposting.Keep? {
      var live := FindLive(entries, doc.id);
      var posting := if reposting.Post? then post(doc, reposting.ctx) else NonPosting;
      if posting.PostRefused? {
        error := Some(PostingRefused);
      } else if PostsTheSame(entries, doc.id, posting) {
        KeptTold(entries, doc, reposting.ctx, version, post);
      } else {
        var reason := if reposting.VoidIt? then Some(reposting.reason) else None;
        now, reversals, entry,
            error := Replace(entries, versions, locked, accepts, doc.id, live, reason, posting, version);
        if error.None? {
          ReplacedTold(entries, now, doc, version, reposting, post);
          ReplacedTaken(entries, now, locked, accepts, doc.id, reason, posting, version);
        }
      }
    }
  }

  /** Reverses what is live and enters what is posted instead, if anything. */
  method Replace(entries: Entries, ghost versions: Versions, locked: Option<int>, accepts: JournalEntry -> bool,
                 id: string, live: seq<nat>, reason: Option<string>, posting: Posting, version: nat)
    returns (now: Entries, reversals: seq<nat>, entry: Option<nat>, error: Option<BooksError>)
    requires Sound(entries, versions) && id in versions && live == LiveEntries(entries, id)
    requires posting.Posted? ==> posting.entry.sourceId == id && posting.entry.reversalOf.None?
    ensures error.None? ==> Sound(now, versions) && Appended(entries, now, locked) && OthersLive(entries, now, id)
    ensures error.None? && !posting.Posted? ==> LiveEntries(now, id) == []
    ensures error.None? && posting.Posted? ==>
      |LiveEntries(now, id)| == 1 && SamePosting(now[LiveEntries(now, id)[0]], posting.entry)
    ensures error.Some? ==> error == Some(EntryRefused)
    ensures error.None? ==>
      now == entries + Reversals(entries, live, reason, |live|) +
             (if posting.Posted? then [posting.entry.(sourceVersion := version)] else [])
    ensures error.None? <==> MayReplace(entries, locked, accepts, id, reason, posting, version)
  {
    var ok;
    entry, error := None, None;
    now, reversals, ok := ReverseAll(entries, versions, locked, accepts, id, live, reason);
    if !ok {
      error := Some(EntryRefused);
    } else if posting.Posted? {
      var e := posting.entry.(sourceVersion := version);
      if Postable(e, locked, accepts) {
        PostedNew(entries, now, versions, locked, id, e);
        entry := Some(|now|);
        now := now + [e];
      } else {
        error := Some(EntryRefused);
      }
    }
  }

  // ---- When a command is accepted ----

  /** A book at one point of a run. */
  datatype Snapshot = Snapshot(
    order: seq<string>, versions: Versions, entries: Entries, locked: Option<int>, marks: Marks)

  /** The posting rules and the chart. */
  datatype Rules = Rules(post: (Document, Context) -> Posting, accepts: JournalEntry -> bool)

  /** A revision is accepted when both dates are open, the posting rules take it and the journal takes what comes
      of it. */
  predicate RevisionAccepted(s: Snapshot, doc: Document, reposting: Reposting, rules: Rules)
    requires doc.id in s.versions
  {
    && Unlocked(s.locked, s.versions[doc.id].newest.date) && Unlocked(s.locked, doc.date)
    && RepostAccepted(s.entries, s.locked, rules.accepts, rules.post, doc, |s.versions[doc.id].older| + 2, reposting)
  }

  /** What may be asked of an edit: neither version voided, the kind kept, and the contact's type and a number the
      book gave kept where both name one. */
  predicate ChangeAllowed(old': Document, asked: Document) {
    && !old'.isVoided && !asked.isVoided && asked.kind == old'.kind
    && (old'.contact.Some? && asked.contact.Some? ==> old'.contact.value.kind == asked.contact.value.kind)
    && (asked.number.Some? && IsNumbered(asked.kind) ==> asked.number == old'.number)
  }

  /** What is prepared: what was asked, with the number kept where none is asked. */
  function ToPrepare(old': Document, asked: Document): Document {
    asked.(number := if asked.number.None? then old'.number else asked.number)
  }

  predicate EditAccepted(s: Snapshot, asked: Document, prepare: Document -> Option<(Document, Context)>, rules: Rules)
    requires forall i :: 0 <= i < |s.order| ==> s.order[i] in s.versions
  {
    && asked.id in s.versions && ChangeAllowed(s.versions[asked.id].newest, asked)
    && var ready := prepare(ToPrepare(s.versions[asked.id].newest, asked));
       ready.Some? && EditPasses(CurrentDocs(s.order, s.versions), ready.value.0) &&
       ready.value.0.id == asked.id && RevisionAccepted(s, ready.value.0, Post(ready.value.1), rules)
  }

  predicate VoidAccepted(s: Snapshot, id: string, reason: string, rules: Rules)
    requires forall i :: 0 <= i < |s.order| ==> s.order[i] in s.versions
  {
    && id in s.versions && !s.versions[id].newest.isVoided && s.versions[id].newest.id == id
    && (BookOf(s.versions[id].newest.kind).Some? ==>
          AppliedByOthers(CurrentDocs(s.order, s.versions), BookOf(s.versions[id].newest.kind).value, id, id,
                          |s.order|) == 0)
    && RevisionAccepted(s, VoidedCopy(s.versions[id].newest, reason), VoidIt(reason), rules)
  }

  /** A live credit and a live document of the kind it applies to, with the same contact or both with none. */
  predicate CreditMatches(credit: Document, target: Document) {
    && (credit.kind.CreditMemo? || credit.kind.VendorCredit?)
    && target.kind == (if credit.kind.CreditMemo? then Invoice else Bill)
    && !credit.isVoided && !target.isVoided
    && (credit.contact.Some? <==> target.contact.Some?)
    && (credit.contact.Some? ==> credit.contact.value.id == target.contact.value.id)
  }

  predicate CreditResolves(versions: Versions, creditId: string, targetId: string) {
    && creditId in versions && targetId in versions
    && CreditMatches(versions[creditId].newest, versions[targetId].newest)
  }

  function OpenSize(docs: seq<Document>, doc: Document): int {
    match BookOf(doc.kind) case Some(book) => Size(OpenAmount(docs, book, FAR_FUTURE, doc)) case None => 0
  }

  /** What is asked for, or the smaller of what the two show open. */
  function CreditWanted(docs: seq<Document>, credit: Document, target: Document, asked: Option<int>): int {
    if asked.Some? then asked.value
    else if OpenSize(docs, credit) < OpenSize(docs, target) then OpenSize(docs, credit)
    else OpenSize(docs, target)
  }

  predicate CreditFits(docs: seq<Document>, credit: Document, target: Document, asked: Option<int>) {
    0 < CreditWanted(docs, credit, target, asked) <= OpenSize(docs, credit) &&
    CreditWanted(docs, credit, target, asked) <= OpenSize(docs, target)
  }

  predicate CreditPlanned(order: seq<string>, versions: Versions, creditId: string, targetId: string,
                          asked: Option<int>)
    requires forall i :: 0 <= i < |order| ==> order[i] in versions
  {
    && CreditResolves(versions, creditId, targetId)
    && CreditFits(CurrentDocs(order, versions), versions[creditId].newest, versions[targetId].newest, asked)
  }

  predicate CreditAccepted(s: Snapshot, creditId: string, targetId: string, asked: Option<int>)
    requires forall i :: 0 <= i < |s.order| ==> s.order[i] in s.versions
  {
    CreditPlanned(s.order, s.versions, creditId, targetId, asked) &&
    Unlocked(s.locked, s.versions[creditId].newest.date)
  }

  // ---- The checks of an edit, from what is recorded ----

  /** What the first `n` applications record against `id`, links too. */
  function AllTo(apps: seq<Application>, id: string, n: nat): int
    requires n <= |apps|
  {
    if n == 0 then 0 else AllTo(apps, id, n - 1) + (if apps[n - 1].target == id then apps[n - 1].amount else 0)
  }

  function AllOf(apps: seq<Application>, n: nat): int
    requires n <= |apps|
  {
    if n == 0 then 0 else AllOf(apps, n - 1) + apps[n - 1].amount
  }

  /** What documents in force other than `but`, of the kinds that settle with this one, record against it. */
  function RecordedElsewhere(docs: seq<Document>, of: Document, but: string, n: nat): int
    requires n <= |docs|
  {
    if n == 0 then 0
    else
      var d := docs[n - 1];
      var kinds := if of.kind == DocKind.Invoice || of.kind == DocKind.CreditMemo
        then {DocKind.Payment, DocKind.CreditMemo} else {DocKind.BillPayment, DocKind.VendorCredit};
      RecordedElsewhere(docs, of, but, n - 1) +
      (if d.id != but && d.kind in kinds && InForce(d, FAR_FUTURE) then AllTo(d.applications, of.id, |d.applications|)
       else 0)
  }

  /** The kinds that are used up by applications. */
  predicate IsUsedUp(doc: Document) {
    doc.kind in {DocKind.Invoice, DocKind.CreditMemo, DocKind.Bill, DocKind.VendorCredit}
  }

  /** A target is a contract, or live and, if it can be used up, with room for the amount beside what others record. */
  predicate TakesAmount(docs: seq<Document>, doc: Document, target: Document, amount: int) {
    || target.kind in {DocKind.Estimate, DocKind.SalesOrder, DocKind.PurchaseOrder}
    || (!target.isVoided &&
        (IsUsedUp(target) ==> RecordedElsewhere(docs, target, doc.id, |docs|) + amount <= DocumentTotal(target)))
  }

  /** What others record against a document, and what it records itself if it is a credit, is within its total. */
  predicate OwnUseFits(docs: seq<Document>, doc: Document) {
    var own := if doc.kind == DocKind.CreditMemo || doc.kind == DocKind.VendorCredit
      then AllOf(doc.applications, |doc.applications|) else 0;
    IsUsedUp(doc) ==> RecordedElsewhere(docs, doc, doc.id, |docs|) + own <= DocumentTotal(doc)
  }

  lemma AllToIs(apps: seq<Application>, id: string)
    ensures Recorded(apps, id, |apps|) == AllTo(apps, id, |apps|)
    ensures RecordedAll(apps, |apps|) == AllOf(apps, |apps|)
  {
    for n := 0 to |apps|
      invariant Recorded(apps, id, n) == AllTo(apps, id, n) && RecordedAll(apps, n) == AllOf(apps, n)
    {}
  }

  lemma ElsewhereIs(docs: seq<Document>, of: Document, but: string)
    requires IsUsedUp(of)
    ensures BookOf(of.kind).Some?
    ensures AppliedByOthers(docs, BookOf(of.kind).value, of.id, but, |docs|) ==
            RecordedElsewhere(docs, of, but, |docs|)
  {
    for n := 0 to |docs|
      invariant AppliedByOthers(docs, BookOf(of.kind).value, of.id, but, n) == RecordedElsewhere(docs, of, but, n)
    {
      AllToIs(docs[n].applications, of.id);
    }
  }

  lemma TargetTells(docs: seq<Document>, doc: Document, a: Application, i: nat)
    requires i < |docs|
    ensures TargetAccepted(docs, doc, a, i) <==>
            docs[i].id == a.target && TakesAmount(docs, doc, docs[i], a.amount)
  {
    if IsUsedUp(docs[i]) { ElsewhereIs(docs, docs[i], doc.id); }
  }

  /** The checks of `update_document` pass if and only if the document's own use fits and every application names a
      saved document that takes it. */
  lemma EditPassesIff(docs: seq<Document>, doc: Document)
    ensures EditPasses(docs, doc) <==>
            && OwnUseFits(docs, doc)
            && forall j :: 0 <= j < |doc.applications| ==>
                 exists i: nat :: i < |docs| && docs[i].id == doc.applications[j].target &&
                   TakesAmount(docs, doc, docs[i], doc.applications[j].amount)
  {
    AllToIs(doc.applications, doc.id);
    if IsUsedUp(doc) { ElsewhereIs(docs, doc, doc.id); }
    forall j, i: nat | 0 <= j < |doc.applications| && i < |docs|
      ensures TargetAccepted(docs, doc, doc.applications[j], i) <==>
              docs[i].id == doc.applications[j].target && TakesAmount(docs, doc, docs[i], doc.applications[j].amount)
    {
      TargetTells(docs, doc, doc.applications[j], i);
    }
  }

  /** A credit memo to an invoice, or a vendor credit to a bill. */
  predicate Pair(credit: Document, target: Document) {
    || (credit.kind == DocKind.CreditMemo && target.kind == DocKind.Invoice)
    || (credit.kind == DocKind.VendorCredit && target.kind == DocKind.Bill)
  }

  /** What a document is open by in the end, without its sign. */
  function LeftOpen(docs: seq<Document>, doc: Document): nat {
    var book := if doc.kind == DocKind.Invoice || doc.kind == DocKind.CreditMemo then Receivable else Payable;
    var owed := Owed(docs, book, FAR_FUTURE, doc);
    if owed < 0 then -owed else owed
  }

  /** A credit may be applied when both are live, go together and have the same owner, the credit's period is open,
      and the amount, asked for or else the smaller of what is left, is positive and left on both. */
  predicate MayApply(docs: seq<Document>, locked: Option<int>, credit: Document, target: Document, asked: Option<int>) {
    var c, t := LeftOpen(docs, credit), LeftOpen(docs, target);
    var amount := if asked.Some? then asked.value else if c < t then c else t;
    && Pair(credit, target) && !credit.isVoided && !target.isVoided
    && (credit.contact == None <==> target.contact == None)
    && (credit.contact != None && target.contact != None ==> credit.contact.value.id == target.contact.value.id)
    && (locked.None? || locked.value < credit.date)
    && 0 < amount <= c && amount <= t
  }

  lemma OpenSizeIs(docs: seq<Document>, i: nat)
    requires DistinctIds(docs) && i < |docs|
    requires docs[i].kind.CreditMemo? || docs[i].kind.VendorCredit? || docs[i].kind.Invoice? || docs[i].kind.Bill?
    ensures OpenSize(docs, docs[i]) == LeftOpen(docs, docs[i])
  {
    OpenIsOwed(docs, BookOf(docs[i].kind).value, FAR_FUTURE, i);
  }

  /** `apply_credit` is accepted if and only if the two documents, as they stand, say so. */
  lemma CreditAcceptedIff(s: Snapshot, creditId: string, targetId: string, asked: Option<int>)
    requires Stored(s.order, s.versions)
    ensures CreditAccepted(s, creditId, targetId, asked) <==>
            && creditId in s.versions && targetId in s.versions
            && MayApply(CurrentDocs(s.order, s.versions), s.locked, s.versions[creditId].newest,
                        s.versions[targetId].newest, asked)
  {
    if creditId in s.versions && targetId in s.versions {
      var docs := CurrentDocs(s.order, s.versions);
      var k, t := IndexOf(s.order, creditId), IndexOf(s.order, targetId);
      CurrentIds(s.order, s.versions);
      if Pair(docs[k], docs[t]) {
        OpenSizeIs(docs, k);
        OpenSizeIs(docs, t);
      }
    }
  }

  lemma CreditBook(credit: Document, target: Document)
    requires CreditMatches(credit, target)
    ensures BookOf(credit.kind).Some? && BookOf(target.kind) == BookOf(credit.kind)
    ensures IsCredit(BookOf(credit.kind).value, credit.kind)
    ensures Opens(BookOf(credit.kind).value, target.kind) == Some(false)
  {}

  /** The credit as it is saved. */
  function CreditedCopy(order: seq<string>, versions: Versions, creditId: string, targetId: string,
                        asked: Option<int>): Document
    requires creditId in versions && targetId in versions && forall i :: 0 <= i < |order| ==> order[i] in versions
  {
    var credit, target := versions[creditId].newest, versions[targetId].newest;
    credit.(applications := WithMore(credit.applications, targetId, target.kind,
                                     CreditWanted(CurrentDocs(order, versions), credit, target, asked)))
  }

  class Ledger {
    /** The posting rules. */
    const post: (Document, Context) -> Posting
    /** The chart's word on a line's account and class. */
    const accepts: JournalEntry -> bool

    var order: seq<string>
    var versions: Versions
    var entries: Entries
    var locked: Option<int>
    ghost var marks: Marks

    ghost predicate Shaped()
      reads this
    {
      PostsSoundly(post) && WellShaped(order, versions, entries, marks)
    }

    ghost predicate Valid()
      reads this
    {
      Shaped() && AllSynced(entries, versions, marks, post, None)
    }

    constructor (post: (Document, Context) -> Posting, accepts: JournalEntry -> bool, locked: Option<int>)
      requires PostsSoundly(post)
      ensures Valid() && order == [] && entries == [] && this.post == post && this.accepts == accepts &&
          this.locked == locked
    {
      this.post, this.accepts, this.locked := post, accepts, locked;
      order, versions, entries, marks := [], map[], [], map[];
    }

    /** The checks of `post_entry`. */
    predicate CanPost(e: JournalEntry)
      reads this
    {
      Postable(e, locked, accepts)
    }

    /** Nothing but the document being saved is out of sync. */
    ghost predicate SyncedBut(id: string)
      reads this
      requires Shaped()
    {
      AllSynced(entries, versions, marks, post, Some(id))
    }

    /** The two writes of a revision: the journal as it will be, and the new version. */
    method SaveRevision(doc: Document, now: Entries, ghost mark: Mark)
      requires Shaped() && doc.id in versions && SyncedBut(doc.id)
      requires Sound(now, versions) && Appended(entries, now, locked) && OthersLive(entries, now, doc.id)
      requires Synced(now, doc, mark, post)
      modifies `entries, `versions, `marks
      ensures entries == now && versions == Saved(old(versions), doc) && marks == old(marks)[doc.id := mark]
      ensures Valid()
    {
      RevisionValid(entries, now, order, versions, marks, doc, mark, post);
      entries, versions, marks := now, Saved(versions, doc), marks[doc.id := mark];
    }

    /** `commit_revision`: saves `doc` as the next version of `old'` and brings the journal in
        line, all or nothing. Whatever was live before, what is live afterwards is exactly what
        the new version posts. */
    method CommitRevision(old': Document, doc: Document, reposting: Reposting) returns (r: Result<Revision, BooksError>)
      requires Shaped() && doc.id in versions && old' == versions[doc.id].newest && SyncedBut(doc.id)
      requires reposting.VoidIt? ==> doc.isVoided
      requires reposting.Post? ==> !doc.isVoided
      requires reposting.Keep? ==> Valid() && doc == old'.(applications := doc.applications)
      requires reposting.Keep? ==> old'.kind.CreditMemo? || old'.kind.VendorCredit?
      modifies this
      ensures locked == old(locked) && order == old(order)
      ensures r.Failure? ==> versions == old(versions) && entries == old(entries) && marks == old(marks)
      ensures r.Success? ==> Valid() && versions == Saved(old(versions), doc) && r.value.document == doc
      ensures r.Success? ==> Appended(old(entries), entries, locked) && OthersLive(old(entries), entries, doc.id)
      ensures r.Success? ==> marks == old(marks)[doc.id := MarkAfter(old(marks)[doc.id], reposting)]
      ensures r.Success? ==>
        Told(old(entries), entries, doc, |old(versions)[doc.id].older| + 2, reposting, post)
      ensures r.Success? ==> AllTaken(old(entries), entries, accepts)
      ensures r.Failure? && r.error.PeriodClosed? <==>
              locked.Some? && (old'.date <= locked.value || doc.date <= locked.value)
      ensures r.Success? <==> RevisionAccepted(old(Now()), doc, reposting, Rules(post, accepts))
    {
      if !Unlocked(locked, old'.date) || !Unlocked(locked, doc.date) { return Failure(PeriodClosed(locked.value)); }
      var version := |versions[doc.id].older| + 2;
      var now, reversals, entry, error := Repost(entries, versions, locked, accepts, post, doc, version, reposting);
      if error.Some? { return Failure(error.value); }
      ghost var mark := MarkAfter(marks[doc.id], reposting);
      assert reposting.Keep? ==> SyncedAt(entries, versions, marks, post, doc.id);
      if reposting.Keep? { KeptSynced(entries, old', doc, mark, post); }
      SaveRevision(doc, now, mark);
      r := Success(Revision(doc, version, reversals, entry));
    }

    /** The newest version of every document. */
    function Documents(): (docs: seq<Document>)
      reads this
      requires Shaped()
      ensures |docs| == |order|
    {
      CurrentIds(order, versions);
      CurrentDocs(order, versions)
    }

    /** Where a document's newest version is. */
    method Latest(id: string) returns (found: Option<nat>)
      requires Shaped()
      ensures found.Some? ==> found.value < |order| && order[found.value] == id && id in versions
      ensures found.Some? ==> Documents()[found.value] == versions[id].newest && Documents()[found.value].id == id
      ensures found.None? <==> id !in versions
    {
      CurrentIds(order, versions);
      found := Find(Documents(), id);
      if found.Some? { assert order[found.value] in order; }
      if id in versions { assert id in order; }
    }

    /** What preparing a document fills in leaves what the checks and the journal are about. */
    static ghost predicate PreparesSoundly(prepare: Document -> Option<(Document, Context)>) {
      forall doc :: prepare(doc).Some? ==>
        prepare(doc).value.0.id == doc.id && prepare(doc).value.0.kind == doc.kind &&
            prepare(doc).value.0.isVoided == doc.isVoided
    }

    /** The refusals of `update_document` before anything is prepared; a blank number is kept. */
    static method CheckChange(old': Document, asked: Document) returns (r: Result<Document, BooksError>)
      requires old'.id == asked.id
      ensures r.Success? <==> ChangeAllowed(old', asked)
      ensures r.Success? ==>
        && asked.kind == old'.kind && !old'.isVoided && !asked.isVoided
        && r.value == ToPrepare(old', asked) && r.value.(number := asked.number) == asked
        && r.value.number == (if asked.number == None then old'.number else asked.number)
        && (r.value.number == old'.number || asked.kind in UNNUMBERED)
      ensures r == Failure(AlreadyVoided(asked.id)) <==> old'.isVoided
      ensures r == Failure(VoidThroughEdit) <==> !old'.isVoided && asked.isVoided
      ensures r == Failure(KindChanged(asked.id)) <==> !old'.isVoided && !asked.isVoided && asked.kind != old'.kind
      ensures r == Failure(ContactTypeChanged(asked.id)) <==>
              && !old'.isVoided && !asked.isVoided && asked.kind == old'.kind
              && old'.contact.Some? && asked.contact.Some? && old'.contact.value.kind != asked.contact.value.kind
      ensures r.Failure? ==>
        r.error in {AlreadyVoided(asked.id), VoidThroughEdit, KindChanged(asked.id), ContactTypeChanged(asked.id),
                    NumberChanged(asked.id)}
      ensures r == Failure(NumberChanged(asked.id)) ==>
        asked.number.Some? && asked.number != old'.number && asked.kind !in UNNUMBERED
    {
      if old'.isVoided { return Failure(AlreadyVoided(asked.id)); }
      if asked.isVoided { return Failure(VoidThroughEdit); }
      if asked.kind != old'.kind { return Failure(KindChanged(asked.id)); }
      if old'.contact.Some? && asked.contact.Some? && old'.contact.value.kind != asked.contact.value.kind {
        return Failure(ContactTypeChanged(asked.id));
      }
      if asked.number.None? { return Success(asked.(number := old'.number)); }
      if IsNumbered(asked.kind) && asked.number != old'.number { return Failure(NumberChanged(asked.id)); }
      r := Success(asked);
    }

    /** `update_document`. It needs no more of the journal than its shape: whatever is live for
        the document, an edit that succeeds puts the book back in sync. */
    method UpdateDocument(asked: Document, prepare: Document -> Option<(Document, Context)>)
        returns (r: Result<Revision, BooksError>, ghost ctx: Context)
      requires Shaped() && PreparesSoundly(prepare) && SyncedBut(asked.id)
      modifies this
      ensures locked == old(locked) && order == old(order)
      ensures r.Failure? ==> versions == old(versions) && entries == old(entries) && marks == old(marks)
      ensures r.Success? ==> Valid() && asked.id in old(versions) && marks == old(marks)[asked.id := Mark(ctx, false)]
      ensures r.Success? ==> prepare(ToPrepare(old(versions)[asked.id].newest, asked)) == Some((r.value.document, ctx))
      ensures r.Success? ==> r.value.document.id == asked.id && versions == Saved(old(versions), r.value.document)
      ensures r.Success? ==> Appended(old(entries), entries, locked) && OthersLive(old(entries), entries, asked.id)
      ensures r.Success? ==>
        Told(old(entries), entries, r.value.document, |old(versions)[asked.id].older| + 2, Post(ctx), post)
      ensures r.Success? ==> EditChecked(old(Documents()), r.value.document)
      ensures r.Success? <==> EditAccepted(old(Now()), asked, prepare, Rules(post, accepts))
    {
      ctx := 0;
      var at := Latest(asked.id);
      if at.None? { return Failure(UnknownDocument(asked.id)), ctx; }
      var docs := Documents();
      var old' := docs[at.value];
      var change := CheckChange(old', asked);
      if change.Failure? { return Failure(change.error), ctx; }
      var prepared := prepare(change.value);
      if prepared.None? { return Failure(NotPrepared), ctx; }
      var doc := prepared.value.0;
      ctx := prepared.value.1;
      CurrentIds(order, versions);
      var ok := CheckEdit(docs, doc);
      if !ok { return Failure(NotAccepted(asked.id)), ctx; }
      r := CommitRevision(old', doc, Post(prepared.value.1));
    }

    /** `void_document`. */
    method VoidDocument(id: string, reason: string) returns (r: Result<Revision, BooksError>)
      requires Shaped() && SyncedBut(id)
      modifies this
      ensures locked == old(locked) && order == old(order)
      ensures r.Failure? ==> versions == old(versions) && entries == old(entries) && marks == old(marks)
      ensures r.Success? ==>
          Valid() && id in old(versions) && marks == old(marks)[id := Mark(old(marks)[id].ctx, false)]
      ensures r.Success? ==>
          r.value.document == VoidedCopy(old(versions)[id].newest, reason) && r.value.document.id == id
      ensures r.Success? ==> versions == Saved(old(versions), r.value.document)
      ensures r.Success? ==> Appended(old(entries), entries, locked) && OthersLive(old(entries), entries, id)
      ensures r.Success? ==>
        Told(old(entries), entries, r.value.document, |old(versions)[id].older| + 2, VoidIt(reason), post)
      ensures r.Success? <==> VoidAccepted(old(Now()), id, reason, Rules(post, accepts))
    {
      var at := Latest(id);
      if at.None? { return Failure(UnknownDocument(id)); }
      var docs := Documents();
      var old' := docs[at.value];
      if old'.isVoided { return Failure(AlreadyVoided(id)); }
      if BookOf(old'.kind).Some? {
        var applied := ComputeAppliedByOthers(docs, BookOf(old'.kind).value, id, id);
        if applied != 0 { return Failure(HasApplications(id, applied)); }
      }
      r := CommitRevision(old', VoidedCopy(old', reason), VoidIt(reason));
    }

    /** The refusals of `apply_credit` that do not depend on amounts. */
    method ResolveCredit(creditId: string, targetId: string) returns (r: Result<(nat, nat), BooksError>)
      requires Shaped()
      ensures r.Success? ==>
        var docs := Documents();
        var (k, t) := r.value;
        && k < |docs| && t < |docs| && order[k] == creditId && order[t] == targetId && creditId in versions
        && docs[k] == versions[creditId].newest && docs[k].id == creditId && docs[t].id == targetId
        && targetId in versions && docs[t] == versions[targetId].newest
      ensures r.Success? <==> CreditResolves(versions, creditId, targetId)
    {
      var c := Latest(creditId);
      if c.None? { return Failure(UnknownDocument(creditId)); }
      var docs := Documents();
      var credit := docs[c.value];
      if !credit.kind.CreditMemo? && !credit.kind.VendorCredit? { return Failure(BadApplication(creditId)); }
      if credit.isVoided { return Failure(AlreadyVoided(creditId)); }
      var g := Latest(targetId);
      if g.None? { return Failure(UnknownDocument(targetId)); }
      var target := docs[g.value];
      if target.kind != (if credit.kind.CreditMemo? then Invoice else Bill) {
        return Failure(BadApplication(targetId));
      }
      if target.isVoided { return Failure(AlreadyVoided(targetId)); }
      if (credit.contact.Some? != target.contact.Some?) ||
          (credit.contact.Some? && credit.contact.value.id != target.contact.value.id) {
        return Failure(BadApplication(creditId));
      }
      r := Success((c.value, g.value));
    }

    /** What `apply_credit` will save. */
    method PlanCredit(creditId: string, targetId: string, asked: Option<int>) returns (r: Result<Document, BooksError>)
      requires Shaped()
      ensures r.Success? <==> CreditPlanned(order, versions, creditId, targetId, asked)
      ensures r.Success? ==> r.value == CreditedCopy(order, versions, creditId, targetId, asked)
    {
      var pair := ResolveCredit(creditId, targetId);
      if pair.Failure? { return Failure(pair.error); }
      CurrentIds(order, versions);
      var docs := Documents();
      var (k, t) := pair.value;
      CreditBook(docs[k], docs[t]);
      var amount := CreditAmount(docs, BookOf(docs[k].kind).value, k, t, asked);
      if amount.None? { return Failure(BadApplication(creditId)); }
      var more := AddToTarget(docs[k].applications, targetId, docs[t].kind, amount.value);
      r := Success(docs[k].(applications := more));
    }

    /** `apply_credit`. */
    method ApplyCredit(creditId: string, targetId: string, asked: Option<int>) returns (r: Result<Revision, BooksError>)
      requires Valid()
      modifies this
      ensures locked == old(locked) && order == old(order) && entries == old(entries) && marks == old(marks)
      ensures r.Failure? ==> versions == old(versions)
      ensures r.Success? <==> CreditAccepted(old(Now()), creditId, targetId, asked)
      ensures r.Success? ==> Valid() && r.value.document.id == creditId
      ensures r.Success? ==> r.value.document == CreditedCopy(old(order), old(versions), creditId, targetId, asked)
      ensures r.Success? ==> versions == Saved(old(versions), r.value.document)
    {
      var plan := PlanCredit(creditId, targetId, asked);
      if plan.Failure? { return Failure(plan.error); }
      r := CommitRevision(versions[creditId].newest, plan.value, Keep);
    }

    /** The journal with what was posted, if the journal takes it. */
    method Enter(posting: Posting) returns (now: Entries, outcome: CreateOutcome)
      requires !posting.PostRefused?
      ensures outcome.SavedUnposted? <==> posting.Posted? && !CanPost(posting.entry)
      ensures !outcome.SavedUnposted? ==> outcome.Created?
      ensures now == if posting.Posted? && CanPost(posting.entry) then entries + [posting.entry] else entries
    {
      if posting.NonPosting? { return entries, Created(None); }
      if !CanPost(posting.entry) { return entries, SavedUnposted; }
      return entries + [posting.entry], Created(Some(|entries|));
    }

    /** Creating a document under a fresh id: posted first, then saved, then entered. The save
        and the entry are two steps, so an entry the journal refuses leaves a saved document
        behind that has nothing live. */
    method Create(doc: Document, ctx: Context) returns (outcome: CreateOutcome)
      requires Valid() && doc.id !in versions && !doc.isVoided
      modifies this
      ensures locked == old(locked) && Valid() && Appended(old(entries), entries, locked) &&
          OthersLive(old(entries), entries, doc.id)
      ensures outcome.NotSaved? <==> post(doc, ctx).PostRefused?
      ensures outcome.NotSaved? ==>
          versions == old(versions) && entries == old(entries) && order == old(order) && marks == old(marks)
      ensures outcome.SavedUnposted? <==> post(doc, ctx).Posted? && !old(CanPost(post(doc, ctx).entry))
      ensures !outcome.NotSaved? ==>
          versions == old(versions)[doc.id := History([], doc)] && order == old(order) + [doc.id]
      ensures !outcome.NotSaved? ==> marks == old(marks)[doc.id := Mark(ctx, outcome.SavedUnposted?)]
      ensures outcome.SavedUnposted? ==> entries == old(entries) && !InSync(entries, doc, ctx, post)
      ensures outcome.Created? ==> InSync(entries, doc, ctx, post)
      ensures outcome.Created? ==>
        StandsAs(entries, doc.id, if post(doc, ctx).Posted? then Some(post(doc, ctx).entry) else None)
      ensures outcome.SavedUnposted? ==> NoneStands(entries, doc.id)
      ensures outcome.Created? ==>
          entries == old(entries) + (if post(doc, ctx).Posted? then [post(doc, ctx).entry] else [])
    {
      var posting := post(doc, ctx);
      if posting.PostRefused? { return NotSaved; }
      NothingLive(entries, versions, doc.id);
      var now;
      now, outcome := Enter(posting);
      ghost var refused := outcome.SavedUnposted?;
      FirstVersion(order, versions, entries, now, marks, doc, ctx, refused, locked, post);
      SyncedStands(now, doc, Mark(ctx, refused), post);
      order, versions, entries, marks :=
        order + [doc.id], versions[doc.id := History([], doc)], now, marks[doc.id := Mark(ctx, refused)];
    }

    /** `close_period`: the book is locked through the latest period closed. */
    method ClosePeriod(through: int)
      requires Valid()
      modifies `locked
      ensures Valid() && locked ==
          Some(if old(locked).None? || old(locked.value) < through then through else old(locked.value))
    {
      if locked.None? || locked.value < through { locked := Some(through); }
    }

    /** The book as it stands. */
    ghost function Now(): Snapshot
      reads this
    {
      Snapshot(order, versions, entries, locked, marks)
    }

    /** Any run of operations, creates with fresh ids only. Every step is one its command allows or changes
        nothing, so the marks hold each document's last posting context; and account by account the journal
        comes to what the newest versions post in those contexts. */
    method Run(commands: seq<Command>, prepare: Document -> Option<(Document, Context)>)
        returns (ghost trace: seq<Snapshot>)
      requires Valid() && PreparesSoundly(prepare)
      modifies this
      ensures Valid() && |trace| == |commands| + 1 && trace[0] == old(Now()) && trace[|commands|] == Now()
      ensures AllStanding(Now(), post)
      ensures forall i :: 0 <= i < |commands| ==>
          Stepped(trace[i], trace[i + 1], commands[i], prepare, Rules(post, accepts))
      ensures forall account ::
          Net(entries, account, |entries|) == ExpectedNet(order, versions, marks, post, account, |order|)
    {
      trace := [Now()];
      for i := 0 to |commands|
        invariant Valid() && |trace| == i + 1 && trace[0] == old(Now()) && trace[i] == Now()
        invariant forall j :: 0 <= j < i ==> Stepped(trace[j], trace[j + 1], commands[j], prepare, Rules(post, accepts))
      {
        Perform(commands[i], prepare);
        trace := trace + [Now()];
      }
      AllStand(order, versions, entries, locked, marks, post);
      forall account
        ensures Net(entries, account, |entries|) == ExpectedNet(order, versions, marks, post, account, |order|)
      {
        JournalIsNewest(order, versions, entries, marks, post, account);
      }
    }

    method Perform(command: Command, prepare: Document -> Option<(Document, Context)>)
      requires Valid() && PreparesSoundly(prepare)
      modifies this
      ensures Valid() && Stepped(old(Now()), Now(), command, prepare, Rules(post, accepts))
    {
      if command.NewDocument? {
        if command.doc.id !in versions && !command.doc.isVoided { var _ := Create(command.doc, command.ctx); }
      } else if command.Close? {
        ClosePeriod(command.through);
      } else {
        Revise(command, prepare);
      }
    }

    method Revise(command: Command, prepare: Document -> Option<(Document, Context)>)
      requires Valid() && PreparesSoundly(prepare) && !command.NewDocument? && !command.Close?
      modifies this
      ensures Valid() && Stepped(old(Now()), Now(), command, prepare, Rules(post, accepts))
    {
      if command.Edit? {
        var _, _ := UpdateDocument(command.asked, prepare);
      } else if command.Void? {
        var _ := VoidDocument(command.id, command.reason);
      } else {
        var _ := ApplyCredit(command.creditId, command.targetId, command.amount);
      }
    }
  }

  /** The journal is added to in open periods only, and only `id` may change what is live. */
  ghost predicate Posts(was: Snapshot, now: Snapshot, id: string) {
    Appended(was.entries, now.entries, was.locked) && OthersLive(was.entries, now.entries, id) &&
        now.locked == was.locked && now.order == was.order
  }

  /** A command is accepted. A document is created under a fresh id only; a period is closed without question. */
  predicate Accepted(was: Snapshot, command: Command, prepare: Document -> Option<(Document, Context)>, rules: Rules)
    requires forall i :: 0 <= i < |was.order| ==> was.order[i] in was.versions
  {
    match command
    case NewDocument(doc, ctx) => doc.id !in was.versions && !doc.isVoided && !rules.post(doc, ctx).PostRefused?
    case Edit(asked) => EditAccepted(was, asked, prepare, rules)
    case Void(id, reason) => VoidAccepted(was, id, reason, rules)
    case Apply(creditId, targetId, amount) =>
      CreditAccepted(was, creditId, targetId, amount)
    case Close(_) => true
  }

  /** What an accepted command does. */
  ghost predicate Done(was: Snapshot, now: Snapshot, command: Command, prepare: Document -> Option<(Document, Context)>,
                       rules: Rules)
    requires forall i :: 0 <= i < |was.order| ==> was.order[i] in was.versions
    requires Accepted(was, command, prepare, rules)
  {
    match command
    case NewDocument(doc, ctx) =>
      var posting := rules.post(doc, ctx);
      var refused := posting.Posted? && !Postable(posting.entry, was.locked, rules.accepts);
      now == Snapshot(was.order + [doc.id], was.versions[doc.id := History([], doc)],
                      was.entries + (if posting.Posted? && !refused then [posting.entry] else []), was.locked,
                      was.marks[doc.id := Mark(ctx, refused)])
    case Edit(asked) =>
      && Posts(was, now, asked.id)
      && var ready := prepare(ToPrepare(was.versions[asked.id].newest, asked));
         && now.versions == Saved(was.versions, ready.value.0)
         && now.marks == was.marks[asked.id := Mark(ready.value.1, false)]
         && Told(was.entries, now.entries, ready.value.0, |was.versions[asked.id].older| + 2, Post(ready.value.1),
                 rules.post)
    case Void(id, reason) =>
      && id in was.marks && Posts(was, now, id)
      && now.versions == Saved(was.versions, VoidedCopy(was.versions[id].newest, reason))
      && now.marks == was.marks[id := Mark(was.marks[id].ctx, false)]
      && Told(was.entries, now.entries, VoidedCopy(was.versions[id].newest, reason), |was.versions[id].older| + 2,
              VoidIt(reason), rules.post)
    case Apply(creditId, targetId, amount) =>
      var doc := CreditedCopy(was.order, was.versions, creditId, targetId, amount);
      doc.id == creditId && now == was.(versions := Saved(was.versions, doc))
    case Close(through) =>
      now == was.(locked := Some(if was.locked.None? || was.locked.value < through then through else was.locked.value))
  }

  /** An accepted command is done, and any other changes nothing. */
  ghost predicate Stepped(was: Snapshot, now: Snapshot, command: Command,
                          prepare: Document -> Option<(Document, Context)>, rules: Rules) {
    && (forall i :: 0 <= i < |was.order| ==> was.order[i] in was.versions)
    && if Accepted(was, command, prepare, rules) then Done(was, now, command, prepare, rules) else now == was
  }

  datatype CreateOutcome = NotSaved | SavedUnposted | Created(entry: Option<nat>)

  datatype Command =
    | NewDocument(doc: Document, ctx: Context) | Edit(asked: Document) | Void(id: string, reason: string)
    | Apply(creditId: string, targetId: string, amount: Option<int>) | Close(through: int)

  // ---- A first version ----

  lemma {:induction false} NothingLiveFrom(entries: Entries, versions: Versions, id: string, n: nat)
    requires n <= |entries| && Sound(entries, versions) && id !in versions
    ensures LiveFrom(entries, id, n) == []
  {
    if n > 0 { NothingLiveFrom(entries, versions, id, n - 1); }
  }

  lemma NothingLive(entries: Entries, versions: Versions, id: string)
    requires Sound(entries, versions) && id !in versions
    ensures LiveEntries(entries, id) == []
  {
    NothingLiveFrom(entries, versions, id, |entries|);
  }

  /** Saving a document under a fresh id leaves a valid store. */
  lemma FirstVersion(order: seq<string>, versions: Versions, was: Entries, now: Entries, marks: Marks, doc: Document,
                     ctx: Context, refused: bool, locked: Option<int>, post: (Document, Context) -> Posting)
    requires WellShaped(order, versions, was, marks) && AllSynced(was, versions, marks, post, None)
    requires PostsSoundly(post) && doc.id !in versions && !doc.isVoided && LiveEntries(was, doc.id) == []
    requires if !refused && post(doc, ctx).Posted? then
        now == was + [post(doc, ctx).entry] && IsBalanced(post(doc, ctx).entry) &&
            Unlocked(locked, post(doc, ctx).entry.date)
      else now == was
    ensures WellShaped(order + [doc.id], versions[doc.id := History([], doc)], now, marks[doc.id := Mark(ctx, refused)])
    ensures AllSynced(now, versions[doc.id := History([], doc)], marks[doc.id := Mark(ctx, refused)], post, None)
    ensures Appended(was, now, locked) && OthersLive(was, now, doc.id)
    ensures !refused ==> InSync(now, doc, ctx, post)
  {
    FirstJournal(was, now, doc, ctx, refused, locked, post);
    FirstShaped(order, versions, was, now, marks, doc, ctx, refused);
    FirstSynced(was, now, order, versions, marks, doc, ctx, refused, post);
  }

  /** The journal after a create: one fresh entry, or none. */
  lemma FirstJournal(was: Entries, now: Entries, doc: Document, ctx: Context, refused: bool, locked: Option<int>,
                     post: (Document, Context) -> Posting)
    requires PointsBack(was) && Cancelled(was) && PostsSoundly(post) && !doc.isVoided && LiveEntries(was, doc.id) == []
    requires if !refused && post(doc, ctx).Posted? then
        now == was + [post(doc, ctx).entry] && IsBalanced(post(doc, ctx).entry) &&
            Unlocked(locked, post(doc, ctx).entry.date)
      else now == was
    ensures PointsBack(now) && Cancelled(now) && Appended(was, now, locked) && OthersLive(was, now, doc.id)
    ensures forall i :: |was| <= i < |now| ==> now[i].sourceId == doc.id && IsBalanced(now[i])
    ensures Synced(now, doc, Mark(ctx, refused), post) && (!refused ==> InSync(now, doc, ctx, post))
  {
    if now != was { PostedFresh(was, post(doc, ctx).entry); }
  }

  lemma FirstShaped(order: seq<string>, versions: Versions, was: Entries, now: Entries, marks: Marks, doc: Document,
                    ctx: Context, refused: bool)
    requires WellShaped(order, versions, was, marks) && doc.id !in versions
    requires PointsBack(now) && Cancelled(now) && |was| <= |now| && now[..|was|] == was
    requires forall i :: |was| <= i < |now| ==> now[i].sourceId == doc.id && IsBalanced(now[i])
    ensures WellShaped(order + [doc.id], versions[doc.id := History([], doc)], now, marks[doc.id := Mark(ctx, refused)])
  {
    assert doc.id !in order;
    var saved := versions[doc.id := History([], doc)];
    forall i | 0 <= i < |now| ensures now[i].sourceId in saved && IsBalanced(now[i]) {
      if i < |was| { assert now[..|was|][i] == was[i]; }
    }
    assert marks[doc.id := Mark(ctx, refused)].Keys == saved.Keys;
  }

  lemma FirstSynced(was: Entries, now: Entries, order: seq<string>, versions: Versions, marks: Marks, doc: Document,
                    ctx: Context, refused: bool, post: (Document, Context) -> Posting)
    requires WellShaped(order, versions, was, marks) && AllSynced(was, versions, marks, post, None)
    requires doc.id !in versions && OthersLive(was, now, doc.id) && |was| <= |now| && now[..|was|] == was
    requires Synced(now, doc, Mark(ctx, refused), post)
    requires marks[doc.id := Mark(ctx, refused)].Keys == versions[doc.id := History([], doc)].Keys
    ensures AllSynced(now, versions[doc.id := History([], doc)], marks[doc.id := Mark(ctx, refused)], post, None)
  {
    var saved, marks' := versions[doc.id := History([], doc)], marks[doc.id := Mark(ctx, refused)];
    forall id | id in saved ensures SyncedAt(now, saved, marks', post, id) {
      if id != doc.id {
        assert SyncedAt(was, versions, marks, post, id);
        SyncedStays(was, now, versions[id].newest, marks[id], post);
      }
    }
  }

  // ---- The journal nets to the newest versions ----

  /** What the newest versions of the first `m` documents post to an account. */
  ghost function ExpectedNet(order: seq<string>, versions: Versions, marks: Marks,
                             post: (Document, Context) -> Posting, account: string, m: nat): int
    requires m <= |order| && forall i :: 0 <= i < |order| ==> order[i] in versions && order[i] in marks
  {
    if m == 0 then 0
    else
      ExpectedNet(order, versions, marks, post, account, m - 1) +
      (if marks[order[m - 1]].unposted then 0 else Expected(versions[order[m - 1]].newest, marks[order[m - 1]].ctx,
          post, account))
  }

  lemma {:induction false} ExpectedNets(order: seq<string>, versions: Versions, entries: Entries, marks: Marks,
                                        post: (Document, Context) -> Posting, account: string, m: nat)
    requires m <= |order| && WellShaped(order, versions, entries, marks)
    requires forall i :: 0 <= i < |order| ==> order[i] in versions && order[i] in marks
    requires AllSynced(entries, versions, marks, post, None)
    ensures DocNetsTo(entries, order, account, |entries|, m) == ExpectedNet(order, versions, marks, post, account, m)
  {
    if m > 0 {
      ExpectedNets(order, versions, entries, marks, post, account, m - 1);
      var id := order[m - 1];
      assert SyncedAt(entries, versions, marks, post, id);
      assert versions[id].newest.id == id;
      if marks[id].unposted {
        assert CancelledFor(entries, id, account);
        LiveNetIsSum(entries, id, account, |entries|);
      } else {
        SyncedNet(entries, versions[id].newest, marks[id].ctx, post, account);
      }
    }
  }

  /** Account by account, the whole journal is the sum of what the newest versions post. */
  lemma JournalIsNewest(order: seq<string>, versions: Versions, entries: Entries, marks: Marks, post: (Document,
                        Context) -> Posting, account: string)
    requires WellShaped(order, versions, entries, marks) && AllSynced(entries, versions, marks, post, None)
    requires forall i :: 0 <= i < |order| ==> order[i] in versions && order[i] in marks
    ensures Net(entries, account, |entries|) == ExpectedNet(order, versions, marks, post, account, |order|)
  {
    NetByDocument(entries, order, account, |entries|);
    ExpectedNets(order, versions, entries, marks, post, account, |order|);
  }

  // ---- No document is used beyond its total ----

  /** Saving an edit keeps every document within its total exactly when all have room for what it moves, and one
      that `update_document` lets through when those its checks do not cover have. */
  lemma EditKeepsTotals(order: seq<string>, versions: Versions, doc: Document, book: BookSide)
    requires Stored(order, versions) && doc.id in order
    ensures Stored(order, Saved(versions, doc))
    ensures NoOveruse(CurrentDocs(order, Saved(versions, doc)), book) <==>
            EditLeavesRoom(CurrentDocs(order, versions), IndexOf(order, doc.id), doc, book)
    ensures EditChecked(CurrentDocs(order, versions), doc) && NoOveruse(CurrentDocs(order, versions), book) ==>
      (NoOveruse(CurrentDocs(order, Saved(versions, doc)), book) <==>
       RiskHasRoom(CurrentDocs(order, versions), IndexOf(order, doc.id), doc, book))
  {
    var k, docs := IndexOf(order, doc.id), CurrentDocs(order, versions);
    CurrentIds(order, versions);
    CurrentAfter(order, versions, doc, k);
    EditKeepsIffRoom(docs, k, doc, book);
    if EditChecked(docs, doc) && NoOveruse(docs, book) { CheckedEditKeepsIff(docs, k, doc, book); }
  }

  /** What `apply_credit` plans is checked as `CreditFit` says. */
  lemma PlannedFits(order: seq<string>, versions: Versions, creditId: string, targetId: string, asked: Option<int>)
    requires Stored(order, versions) && CreditPlanned(order, versions, creditId, targetId, asked)
    ensures var k, t, docs := IndexOf(order, creditId), IndexOf(order, targetId), CurrentDocs(order, versions);
      var amount := CreditWanted(docs, docs[k], docs[t], asked);
      && BookOf(docs[k].kind).Some? && CreditFit(docs, BookOf(docs[k].kind).value, k, t, amount)
      && CreditedCopy(order, versions, creditId, targetId, asked) == Credited(docs, k, t, amount)
  {
    CurrentIds(order, versions);
    CreditBook(versions[creditId].newest, versions[targetId].newest);
  }

  /** A credit that `apply_credit` lets through keeps every document within its total exactly when all were. */
  lemma CreditKeepsTotals(order: seq<string>, versions: Versions, creditId: string, targetId: string,
                          asked: Option<int>, book: BookSide)
    requires Stored(order, versions) && CreditPlanned(order, versions, creditId, targetId, asked)
    ensures var doc := CreditedCopy(order, versions, creditId, targetId, asked);
      && doc.id == creditId && Stored(order, Saved(versions, doc))
      && (NoOveruse(CurrentDocs(order, Saved(versions, doc)), book) <==> NoOveruse(CurrentDocs(order, versions), book))
  {
    var k, t, docs := IndexOf(order, creditId), IndexOf(order, targetId), CurrentDocs(order, versions);
    var doc, amount := CreditedCopy(order, versions, creditId, targetId, asked),
        CreditWanted(docs, docs[k], docs[t], asked);
    PlannedFits(order, versions, creditId, targetId, asked);
    CurrentAfter(order, versions, doc, k);
    if book == BookOf(docs[k].kind).value {
      CreditKeepsNoOveruse(docs, book, k, t, amount);
    } else {
      OtherBookKept(docs, book, k, doc);
    }
  }

  /** How much of a credit to apply, if what is asked fits what both rows show open. */
  method CreditAmount(docs: seq<Document>, book: BookSide, k: nat, t: nat, asked: Option<int>)
      returns (amount: Option<int>)
    requires DistinctIds(docs) && k < |docs| && t < |docs|
    requires IsCredit(book, docs[k].kind) && Opens(book, docs[t].kind) == Some(false)
    ensures amount.Some? ==> CreditFit(docs, book, k, t, amount.value)
    ensures amount.Some? ==> amount.value == CreditWanted(docs, docs[k], docs[t], asked)
    ensures amount.Some? <==> CreditFits(docs, docs[k], docs[t], asked)
  {
    var open := ComputeOpenItems(docs, book, FAR_FUTURE);
    var creditOpen := FindOpen(open, docs[k].id);
    var targetOpen := FindOpen(open, docs[t].id);
    OpenOfRow(docs, book, FAR_FUTURE, k, |docs|);
    OpenOfRow(docs, book, FAR_FUTURE, t, |docs|);
    var c, g := Size(creditOpen), Size(targetOpen);
    var wanted := if asked.Some? then asked.value else if c < g then c else g;
    if wanted <= 0 || wanted > c || wanted > g { return None; }
    amount := Some(wanted);
  }

  /** The document types that bring their own number, if any. */
  const UNNUMBERED := {DocKind.Payment, DocKind.Bill, DocKind.BillPayment, DocKind.VendorCredit, DocKind.Purchase,
    DocKind.Deposit, DocKind.JournalEntry, DocKind.RawMaterialReceipt, DocKind.Build, DocKind.InventoryAdjustment,
    DocKind.BankLine, DocKind.Settlement}

  /** The document types the book numbers itself. */
  predicate IsNumbered(kind: DocKind) {
    kind.Estimate? || kind.SalesOrder? || kind.Invoice? || kind.SalesReceipt? || kind.CreditMemo? || kind.RefundReceipt?
    || kind.PurchaseOrder?
  }
}
