/** What the checksum of a reporting job says about its wiring. */
module JobChecksums {
  import opened Wrappers
  import opened PolicyTypes
  import opened Ordering
  import opened JobGraph
  import opened ReportingJobs
  import opened JobWiring

  // ----- checksums as streams of entries -----

  /** A text, with the impact that follows it if any. */
  datatype Entry = Entry(text: string, impact: Option<Impact>)

  function Stream(base: Digest, entries: seq<Entry>): Digest {
    if entries == [] then base
    else
      var last := entries[|entries| - 1];
      var sum := AddText(Stream(base, entries[..|entries| - 1]), last.text);
      if last.impact.Some? then AddSum(sum, ImpactSum(last.impact.value)) else sum
  }

  lemma ImpactSumIsInjective(a: Impact, b: Impact)
    requires ImpactSum(a) == ImpactSum(b)
    ensures a == b
  {
  }

  lemma {:induction false} StreamIsInjective(base: Digest, base': Digest, a: seq<Entry>, b: seq<Entry>)
    requires base.AddQrId? && base'.AddQrId? && Stream(base, a) == Stream(base', b)
    ensures base == base' && a == b
  {
    if a != [] && b != [] {
      var x, y := a[|a| - 1], b[|b| - 1];
      if x.impact.Some? && y.impact.Some? {
        ImpactSumIsInjective(x.impact.value, y.impact.value);
      }
      StreamIsInjective(base, base', a[..|a| - 1], b[..|b| - 1]);
      assert a == a[..|a| - 1] + [x] && b == b[..|b| - 1] + [y];
    }
  }

  function ChildEntries(childJobs: map<Uuid, Option<Impact>>, keys: seq<Uuid>): (r: seq<Entry>)
    requires forall k :: k in keys ==> k in childJobs
    ensures |r| == |keys|
  {
    if keys == [] then []
    else ChildEntries(childJobs, keys[..|keys| - 1]) + [Entry(keys[|keys| - 1], childJobs[keys[|keys| - 1]])]
  }

  function TextEntries(texts: seq<string>): (r: seq<Entry>)
    ensures |r| == |texts|
  {
    if texts == [] then [] else TextEntries(texts[..|texts| - 1]) + [Entry(texts[|texts| - 1], None)]
  }

  lemma {:induction false} ChildEntryAt(childJobs: map<Uuid, Option<Impact>>, keys: seq<Uuid>, i: nat)
    requires (forall k :: k in keys ==> k in childJobs) && i < |keys|
    ensures ChildEntries(childJobs, keys)[i] == Entry(keys[i], childJobs[keys[i]])
    decreases |keys|
  {
    if i < |keys| - 1 {
      ChildEntryAt(childJobs, keys[..|keys| - 1], i);
    }
  }

  lemma {:induction false} TextEntryAt(texts: seq<string>, i: nat)
    requires i < |texts|
    ensures TextEntries(texts)[i] == Entry(texts[i], None)
    decreases |texts|
  {
    if i < |texts| - 1 {
      TextEntryAt(texts[..|texts| - 1], i);
    }
  }

  lemma StreamOneMore(base: Digest, entries: seq<Entry>, e: Entry)
    ensures var sum := AddText(Stream(base, entries), e.text);
      Stream(base, entries + [e]) == if e.impact.Some? then AddSum(sum, ImpactSum(e.impact.value)) else sum
  {
    assert (entries + [e])[..|entries|] == entries;
  }

  lemma {:induction false} ChildrenStream(base: Digest, childJobs: map<Uuid, Option<Impact>>, keys: seq<Uuid>)
    requires forall k :: k in keys ==> k in childJobs
    ensures AddChildren(base, childJobs, keys) == Stream(base, ChildEntries(childJobs, keys))
  {
    if keys != [] {
      var front, last := keys[..|keys| - 1], keys[|keys| - 1];
      ChildrenStream(base, childJobs, front);
      StreamOneMore(base, ChildEntries(childJobs, front), Entry(last, childJobs[last]));
    }
  }

  lemma {:induction false} TextsStream(base: Digest, before: seq<Entry>, texts: seq<string>)
    ensures AddTexts(Stream(base, before), texts) == Stream(base, before + TextEntries(texts))
  {
    if texts == [] {
      assert before + TextEntries(texts) == before;
    } else {
      var front, last := texts[..|texts| - 1], texts[|texts| - 1];
      TextsStream(base, before, front);
      StreamOneMore(base, before + TextEntries(front), Entry(last, None));
      assert before + TextEntries(texts) == before + TextEntries(front) + [Entry(last, None)];
    }
  }

  function BaseOf(uuid: Uuid, qrId: QrId): Digest {
    AddQrId(AddText(AddText(Start, "v2"), uuid), qrId)
  }

  ghost function EntriesOf(childJobs: map<Uuid, Option<Impact>>, notify: seq<Uuid>): seq<Entry> {
    ChildEntries(childJobs, SortedKeys(childJobs.Keys)) + TextEntries(Sort(CompareStrings, notify))
  }

  lemma ChecksumIsStream(uuid: Uuid, qrId: QrId, childJobs: map<Uuid, Option<Impact>>, notify: seq<Uuid>)
    ensures ChecksumOf(uuid, qrId, childJobs, notify) == Stream(BaseOf(uuid, qrId), EntriesOf(childJobs, notify))
  {
    ChildrenStream(BaseOf(uuid, qrId), childJobs, SortedKeys(childJobs.Keys));
    TextsStream(BaseOf(uuid, qrId), ChildEntries(childJobs, SortedKeys(childJobs.Keys)), Sort(CompareStrings, notify));
  }

  // ----- sorted keys -----

  ghost predicate Ascending(s: seq<string>) {
    forall i, j :: 0 <= i < j < |s| ==> CompareStrings(s[i], s[j]) < 0
  }

  lemma SortedOnce(s: seq<string>)
    requires Sorted(CompareStrings, s) && forall i, j :: 0 <= i < j < |s| ==> s[i] != s[j]
    ensures Ascending(s)
  {
    forall i, j | 0 <= i < j < |s| ensures CompareStrings(s[i], s[j]) < 0 {
      StringTiesAreEqual(s[i], s[j]);
    }
  }

  lemma OnceEach(s: seq<string>)
    requires forall x :: x in s ==> multiset(s)[x] == 1
    ensures forall i, j :: 0 <= i < j < |s| ==> s[i] != s[j]
  {
    forall i, j | 0 <= i < j < |s| ensures s[i] != s[j] {
      assert s == s[..j] + [s[j]] + s[j + 1..];
      assert multiset(s)[s[j]] >= multiset(s[..j])[s[j]] + 1;
    }
  }

  lemma SortedKeysAscend(s: set<Uuid>)
    ensures Ascending(SortedKeys(s)) && multiset(SortedKeys(s)) == multiset(s)
  {
    StringsAreOrdered();
    SortPermutes(CompareStrings, Listed(s));
    SortIsSorted(CompareStrings, Listed(s));
    OnceEach(SortedKeys(s));
    SortedOnce(SortedKeys(s));
  }

  lemma {:induction false} AscendingMultiset(keys: seq<string>, s: set<string>)
    requires Ascending(keys) && forall k :: k in keys <==> k in s
    ensures multiset(keys) == multiset(s)
  {
    if keys == [] {
      assert s == {};
    } else {
      var front, last := keys[..|keys| - 1], keys[|keys| - 1];
      assert keys == front + [last];
      forall i | 0 <= i < |front| ensures front[i] != last {
        StringTiesAreEqual(keys[i], last);
      }
      AscendingMultiset(front, s - {last});
      assert s == (s - {last}) + {last};
    }
  }

  /** An ascending list of the keys is the sorted one. */
  lemma KeysAre(keys: seq<string>, s: set<string>)
    requires Ascending(keys) && forall k :: k in keys <==> k in s
    ensures SortedKeys(s) == keys
  {
    AscendingMultiset(keys, s);
    SortedKeysAscend(s);
    StringsAreOrdered();
    StringTiesDistinguish(keys);
    SortedIsUnique(CompareStrings, keys, SortedKeys(s));
  }

  // ----- when the checksum determines the wiring -----

  /** The checksums of different jobs differ. */
  lemma ChecksumKnowsJob(
    uuid: Uuid, qrId: QrId, childJobs: map<Uuid, Option<Impact>>, notify: seq<Uuid>,
    uuid': Uuid, qrId': QrId, childJobs': map<Uuid, Option<Impact>>, notify': seq<Uuid>)
    requires ChecksumOf(uuid, qrId, childJobs, notify) == ChecksumOf(uuid', qrId', childJobs', notify')
    ensures uuid == uuid' && qrId == qrId' && EntriesOf(childJobs, notify) == EntriesOf(childJobs', notify')
  {
    ChecksumIsStream(uuid, qrId, childJobs, notify);
    ChecksumIsStream(uuid', qrId', childJobs', notify');
    StreamIsInjective(BaseOf(uuid, qrId), BaseOf(uuid', qrId'), EntriesOf(childJobs, notify),
      EntriesOf(childJobs', notify'));
  }

  /** a comes before b, or is allowed to be b. */
  predicate IsBelow(orSame: bool, a: string, b: string) {
    CompareStrings(a, b) < 0 || (orSame && CompareStrings(a, b) == 0)
  }

  /** The last child cannot be taken for a job to notify: it has an impact, or one of those comes
      before it. If no job is notified twice, it may also be one of those. */
  ghost predicate LastChildStays(once: bool, childJobs: map<Uuid, Option<Impact>>, notify: seq<Uuid>) {
    var keys, texts := SortedKeys(childJobs.Keys), Sort(CompareStrings, notify);
    keys != [] ==>
    var last := keys[|keys| - 1];
    childJobs[last].Some? || (texts != [] && IsBelow(once, texts[0], last))
  }

  /** The first job to notify cannot be taken for a child: it does not come after the last one. */
  ghost predicate FirstNotifiedStays(childJobs: map<Uuid, Option<Impact>>, notify: seq<Uuid>) {
    var keys, texts := SortedKeys(childJobs.Keys), Sort(CompareStrings, notify);
    texts != [] ==> keys != [] && CompareStrings(texts[0], keys[|keys| - 1]) <= 0
  }

  /** No other children and jobs to notify have this checksum, among all lists of jobs or among
      those that list none of them twice. */
  ghost predicate Determines(
    once: bool, uuid: Uuid, qrId: QrId, childJobs: map<Uuid, Option<Impact>>, notify: seq<Uuid>)
  {
    forall childJobs', notify' ::
      (once ==> NoDuplicates(notify')) &&
      ChecksumOf(uuid, qrId, childJobs', notify') == ChecksumOf(uuid, qrId, childJobs, notify) ==>
      childJobs' == childJobs && multiset(notify') == multiset(notify)
  }

  // ----- borders -----

  /** The first n entries may be children, the others jobs to notify. */
  ghost predicate IsBorder(entries: seq<Entry>, n: nat) {
    && n <= |entries|
    && (forall i, j :: 0 <= i < j < n ==> CompareStrings(entries[i].text, entries[j].text) < 0)
    && (forall i :: n <= i < |entries| ==> entries[i].impact.None?)
    && (forall i, j :: n <= i < j < |entries| ==> CompareStrings(entries[i].text, entries[j].text) <= 0)
  }

  /** No job to notify is listed twice. */
  ghost predicate OnceAfter(entries: seq<Entry>, n: nat) {
    forall i, j :: n <= i < j < |entries| ==> CompareStrings(entries[i].text, entries[j].text) < 0
  }

  ghost predicate IsFixed(once: bool, entries: seq<Entry>, n: nat)
    requires n <= |entries|
  {
    && (n > 0 ==>
        entries[n - 1].impact.Some? || (n < |entries| && IsBelow(once, entries[n].text, entries[n - 1].text)))
    && (n < |entries| ==> n > 0 && CompareStrings(entries[n].text, entries[n - 1].text) <= 0)
  }

  lemma FixedIsOnly(once: bool, entries: seq<Entry>, n: nat, n': nat)
    requires IsBorder(entries, n') && (once ==> OnceAfter(entries, n'))
    requires n <= |entries| && IsFixed(once, entries, n)
    ensures n == n'
  {
    if n' < n < |entries| {
      StringsFlip(entries[n - 1].text, entries[n].text);
      StringsFlip(entries[n].text, entries[n - 1].text);
    } else if 0 < n < n' {
      StringsFlip(entries[n - 1].text, entries[n].text);
    }
  }

  /** A border that is not fixed can be moved by one. */
  lemma LooseMoves(once: bool, entries: seq<Entry>, n: nat) returns (n': nat)
    requires IsBorder(entries, n) && (once ==> OnceAfter(entries, n)) && !IsFixed(once, entries, n)
    ensures IsBorder(entries, n') && (once ==> OnceAfter(entries, n')) && n' != n
  {
    if LastIsLoose(once, entries, n) {
      MovesDown(once, entries, n);
      n' := n - 1;
    } else {
      MovesUp(entries, n);
      n' := n + 1;
    }
  }

  /** The last of the first n entries may as well come after the border. */
  ghost predicate LastIsLoose(once: bool, entries: seq<Entry>, n: nat)
    requires n <= |entries|
  {
    && n > 0 && entries[n - 1].impact.None?
    && (n < |entries| ==> !IsBelow(once, entries[n].text, entries[n - 1].text))
  }

  lemma MovesDown(once: bool, entries: seq<Entry>, n: nat)
    requires IsBorder(entries, n) && (once ==> OnceAfter(entries, n)) && LastIsLoose(once, entries, n)
    ensures IsBorder(entries, n - 1) && (once ==> OnceAfter(entries, n - 1))
  {
    forall i, j | n - 1 <= i < j < |entries|
      ensures CompareStrings(entries[i].text, entries[j].text) <= 0
      ensures once ==> CompareStrings(entries[i].text, entries[j].text) < 0
    {
      if n <= i {
      } else {
        LastIsNotAbove(once, entries, n, j);
      }
    }
  }

  lemma LastIsNotAbove(once: bool, entries: seq<Entry>, n: nat, j: nat)
    requires IsBorder(entries, n) && (once ==> OnceAfter(entries, n)) && LastIsLoose(once, entries, n)
    requires n <= j < |entries|
    ensures CompareStrings(entries[n - 1].text, entries[j].text) <= 0
    ensures once ==> CompareStrings(entries[n - 1].text, entries[j].text) < 0
  {
    var a, b, c := entries[n - 1].text, entries[n].text, entries[j].text;
    StringTiesAreEqual(b, b);
    NotAboveTransitive(a, b, c);
    if once {
      StringsFlip(a, b);
      StringsFlip(b, a);
      if n < j {
        BelowTransitive(a, b, c);
      }
    }
  }

  lemma MovesUp(entries: seq<Entry>, n: nat)
    requires IsBorder(entries, n) && n < |entries|
    requires n > 0 ==> CompareStrings(entries[n].text, entries[n - 1].text) > 0
    ensures IsBorder(entries, n + 1)
  {
    forall i, j | 0 <= i < j < n + 1 ensures CompareStrings(entries[i].text, entries[j].text) < 0 {
      if j < n {
      } else {
        FirstIsAbove(entries, n, i);
      }
    }
  }

  lemma FirstIsAbove(entries: seq<Entry>, n: nat, i: nat)
    requires IsBorder(entries, n) && i < n < |entries|
    requires CompareStrings(entries[n].text, entries[n - 1].text) > 0
    ensures CompareStrings(entries[i].text, entries[n].text) < 0
  {
    var a, b, c := entries[i].text, entries[n - 1].text, entries[n].text;
    StringTiesAreEqual(b, b);
    StringsFlip(b, c);
    BelowTransitive(a, b, c);
  }

  lemma NotAboveTransitive(a: string, b: string, c: string)
    requires CompareStrings(b, a) >= 0 && CompareStrings(b, c) <= 0
    ensures CompareStrings(a, c) <= 0
  {
    StringsFlip(a, b);
    StringsFlip(b, a);
    StringsTransitive(a, b, c);
  }

  lemma BelowTransitive(a: string, b: string, c: string)
    requires CompareStrings(a, b) <= 0 && CompareStrings(b, c) < 0
    ensures CompareStrings(a, c) < 0
  {
    StringsTransitive(a, b, c);
    StringTiesAreEqual(a, c);
    StringsFlip(b, c);
  }

  /** The entries are the keys with their impacts, then the texts. */
  ghost predicate Describes(
      entries: seq<Entry>, childJobs: map<Uuid, Option<Impact>>, keys: seq<Uuid>, texts: seq<Uuid>) {
    && |entries| == |keys| + |texts| && (forall k :: k in keys ==> k in childJobs)
    && (forall i :: 0 <= i < |keys| ==> entries[i] == Entry(keys[i], childJobs[keys[i]]))
    && (forall i :: |keys| <= i < |entries| ==> entries[i] == Entry(texts[i - |keys|], None))
  }

  lemma EntriesAreDescribed(childJobs: map<Uuid, Option<Impact>>, keys: seq<Uuid>, texts: seq<Uuid>)
    requires forall k :: k in keys ==> k in childJobs
    ensures Describes(ChildEntries(childJobs, keys) + TextEntries(texts), childJobs, keys, texts)
  {
    var entries := ChildEntries(childJobs, keys) + TextEntries(texts);
    forall i | 0 <= i < |keys| ensures entries[i] == Entry(keys[i], childJobs[keys[i]]) {
      ChildEntryAt(childJobs, keys, i);
    }
    forall i | |keys| <= i < |entries| ensures entries[i] == Entry(texts[i - |keys|], None) {
      TextEntryAt(texts, i - |keys|);
    }
  }

  lemma WiringIsDescribed(childJobs: map<Uuid, Option<Impact>>, notify: seq<Uuid>)
    ensures Describes(EntriesOf(childJobs, notify), childJobs, SortedKeys(childJobs.Keys), Sort(CompareStrings, notify))
    ensures |SortedKeys(childJobs.Keys)| == |childJobs|
  {
    EntriesAreDescribed(childJobs, SortedKeys(childJobs.Keys), Sort(CompareStrings, notify));
    CountKeys(childJobs.Keys);
  }

  lemma CountKeys(s: set<Uuid>)
    ensures |SortedKeys(s)| == |s|
  {
    SortedKeysAscend(s);
    assert |multiset(SortedKeys(s))| == |multiset(s)|;
  }

  lemma DescribedBorder(entries: seq<Entry>, childJobs: map<Uuid, Option<Impact>>, keys: seq<Uuid>, texts: seq<Uuid>)
    requires Describes(entries, childJobs, keys, texts) && Ascending(keys) && Sorted(CompareStrings, texts)
    ensures IsBorder(entries, |keys|)
  {
    forall i, j | |keys| <= i < j < |entries| ensures CompareStrings(entries[i].text, entries[j].text) <= 0 {
      assert entries[i].text == texts[i - |keys|] && entries[j].text == texts[j - |keys|];
    }
  }

  /** The border of a wiring comes after its children. */
  lemma WiringHasBorder(childJobs: map<Uuid, Option<Impact>>, notify: seq<Uuid>)
    ensures IsBorder(EntriesOf(childJobs, notify), |childJobs|)
    ensures NoDuplicates(notify) ==> OnceAfter(EntriesOf(childJobs, notify), |childJobs|)
  {
    WiringIsDescribed(childJobs, notify);
    StringsAreOrdered();
    SortIsSorted(CompareStrings, notify);
    SortedKeysAscend(childJobs.Keys);
    DescribedBorder(EntriesOf(childJobs, notify), childJobs, SortedKeys(childJobs.Keys), Sort(CompareStrings, notify));
    if NoDuplicates(notify) {
      SortOnce(notify);
      DescribedOnceAfter(
        EntriesOf(childJobs, notify), childJobs, SortedKeys(childJobs.Keys), Sort(CompareStrings, notify));
    }
  }

  lemma SortOnce(notify: seq<Uuid>)
    requires NoDuplicates(notify)
    ensures Ascending(Sort(CompareStrings, notify))
  {
    var texts := Sort(CompareStrings, notify);
    StringsAreOrdered();
    SortIsSorted(CompareStrings, notify);
    SortPermutes(CompareStrings, notify);
    forall x | x in texts ensures multiset(texts)[x] == 1 {
      assert x in multiset(notify);
      CountInDistinct(notify, x);
    }
    OnceEach(texts);
    SortedOnce(texts);
  }

  lemma DescribedOnceAfter(
      entries: seq<Entry>, childJobs: map<Uuid, Option<Impact>>, keys: seq<Uuid>, texts: seq<Uuid>)
    requires Describes(entries, childJobs, keys, texts) && Ascending(texts)
    ensures OnceAfter(entries, |keys|)
  {
    forall i, j | |keys| <= i < j < |entries| ensures CompareStrings(entries[i].text, entries[j].text) < 0 {
      assert entries[i].text == texts[i - |keys|] && entries[j].text == texts[j - |keys|];
    }
  }

  /** Every border belongs to a wiring. */
  lemma BorderHasWiring(entries: seq<Entry>, n: nat) returns (childJobs: map<Uuid, Option<Impact>>, notify: seq<Uuid>)
    requires IsBorder(entries, n)
    ensures EntriesOf(childJobs, notify) == entries && |childJobs| == n
    ensures OnceAfter(entries, n) ==> NoDuplicates(notify)
  {
    var keys, texts := Texts(entries[..n]), Texts(entries[n..]);
    childJobs, notify := Children(entries[..n]), texts;
    KeysAre(keys, childJobs.Keys);
    SortOfSorted(CompareStrings, texts);
    WiringIsDescribed(childJobs, notify);
    forall i | 0 <= i < n ensures entries[i].text in childJobs && childJobs[entries[i].text] == entries[i].impact {
      assert entries[..n][i] == entries[i];
    }
    BorderDescribes(entries, n, childJobs);
    DescribedOnce(entries, EntriesOf(childJobs, notify), childJobs, keys, texts);
    if OnceAfter(entries, n) {
      OnceIsDistinct(entries, n);
    }
  }

  lemma OnceIsDistinct(entries: seq<Entry>, n: nat)
    requires n <= |entries| && OnceAfter(entries, n)
    ensures NoDuplicates(Texts(entries[n..]))
  {
    var texts := Texts(entries[n..]);
    forall i, j | 0 <= i < j < |texts| ensures texts[i] != texts[j] {
      assert texts[i] == entries[n + i].text && texts[j] == entries[n + j].text;
      StringTiesAreEqual(texts[i], texts[j]);
    }
  }

  lemma BorderDescribes(entries: seq<Entry>, n: nat, childJobs: map<Uuid, Option<Impact>>)
    requires n <= |entries|
    requires forall i :: 0 <= i < n ==> entries[i].text in childJobs && childJobs[entries[i].text] == entries[i].impact
    requires forall i :: n <= i < |entries| ==> entries[i].impact.None?
    ensures Describes(entries, childJobs, Texts(entries[..n]), Texts(entries[n..]))
  {
  }

  lemma DescribedOnce(
      a: seq<Entry>, b: seq<Entry>, childJobs: map<Uuid, Option<Impact>>, keys: seq<Uuid>, texts: seq<Uuid>)
    requires Describes(a, childJobs, keys, texts) && Describes(b, childJobs, keys, texts)
    ensures a == b
  {
  }

  function Texts(entries: seq<Entry>): (r: seq<string>)
    ensures |r| == |entries| && forall i :: 0 <= i < |r| ==> r[i] == entries[i].text
  {
    seq(|entries|, i requires 0 <= i < |entries| => entries[i].text)
  }

  /** The children of an ascending list of entries. */
  ghost function Children(entries: seq<Entry>): (r: map<Uuid, Option<Impact>>)
    requires IsBorder(entries, |entries|)
    ensures forall i :: 0 <= i < |entries| ==> entries[i].text in r && r[entries[i].text] == entries[i].impact
    ensures forall k :: k in r ==> k in Texts(entries)
  {
    if entries == [] then map[]
    else
      SplitEntries(entries);
      Children(entries[..|entries| - 1])[entries[|entries| - 1].text := entries[|entries| - 1].impact]
  }

  lemma SplitEntries(entries: seq<Entry>)
    requires IsBorder(entries, |entries|) && entries != []
    ensures var front, last := entries[..|entries| - 1], entries[|entries| - 1];
      && IsBorder(front, |front|)
      && Texts(entries) == Texts(front) + [last.text]
      && forall i :: 0 <= i < |front| ==> entries[i] == front[i] && entries[i].text != last.text
  {
    forall i | 0 <= i < |entries| - 1 ensures entries[i].text != entries[|entries| - 1].text {
      StringTiesAreEqual(entries[i].text, entries[|entries| - 1].text);
    }
  }

  // ----- main result -----

  lemma StaysIsFixed(once: bool, childJobs: map<Uuid, Option<Impact>>, notify: seq<Uuid>)
    ensures |childJobs| <= |EntriesOf(childJobs, notify)|
    ensures IsFixed(once, EntriesOf(childJobs, notify), |childJobs|) <==>
      LastChildStays(once, childJobs, notify) && FirstNotifiedStays(childJobs, notify)
  {
    WiringIsDescribed(childJobs, notify);
  }

  lemma SameBorderSameParts(
    entries: seq<Entry>, childJobs: map<Uuid, Option<Impact>>, keys: seq<Uuid>, texts: seq<Uuid>,
    childJobs': map<Uuid, Option<Impact>>, keys': seq<Uuid>, texts': seq<Uuid>)
    requires Describes(entries, childJobs, keys, texts) && Describes(entries, childJobs', keys', texts')
    requires |keys| == |keys'|
    ensures keys == keys' && texts == texts' && forall k :: k in keys ==> childJobs[k] == childJobs'[k]
  {
    forall i | 0 <= i < |texts| ensures texts[i] == texts'[i] {
      assert entries[|keys| + i] == Entry(texts[|keys| + i - |keys|], None);
    }
  }

  lemma SameBorderSameWiring(
    childJobs: map<Uuid, Option<Impact>>, notify: seq<Uuid>, childJobs': map<Uuid, Option<Impact>>, notify': seq<Uuid>)
    requires EntriesOf(childJobs, notify) == EntriesOf(childJobs', notify') && |childJobs| == |childJobs'|
    ensures childJobs' == childJobs && multiset(notify') == multiset(notify)
  {
    WiringIsDescribed(childJobs, notify);
    WiringIsDescribed(childJobs', notify');
    SortPermutes(CompareStrings, notify);
    SortPermutes(CompareStrings, notify');
    SameBorderSameParts(
      EntriesOf(childJobs, notify), childJobs, SortedKeys(childJobs.Keys), Sort(CompareStrings, notify),
      childJobs', SortedKeys(childJobs'.Keys), Sort(CompareStrings, notify'));
    SameKeysSameMap(childJobs, childJobs');
  }

  lemma SameKeysSameMap(a: map<Uuid, Option<Impact>>, b: map<Uuid, Option<Impact>>)
    requires SortedKeys(a.Keys) == SortedKeys(b.Keys) && forall k :: k in SortedKeys(a.Keys) ==> a[k] == b[k]
    ensures a == b
  {
    assert forall k :: k in a <==> k in SortedKeys(a.Keys);
  }

  /** The checksum of a job determines its children, their impacts and the jobs it notifies, up to
      the order these are listed in, exactly if the border between the two cannot be moved. */
  lemma ChecksumDeterminesIff(
      once: bool, uuid: Uuid, qrId: QrId, childJobs: map<Uuid, Option<Impact>>, notify: seq<Uuid>)
    requires once ==> NoDuplicates(notify)
    ensures Determines(once, uuid, qrId, childJobs, notify) <==>
      LastChildStays(once, childJobs, notify) && FirstNotifiedStays(childJobs, notify)
  {
    var entries := EntriesOf(childJobs, notify);
    StaysIsFixed(once, childJobs, notify);
    WiringHasBorder(childJobs, notify);
    if IsFixed(once, entries, |childJobs|) {
      forall childJobs', notify' | (once ==> NoDuplicates(notify')) &&
          ChecksumOf(uuid, qrId, childJobs', notify') == ChecksumOf(uuid, qrId, childJobs, notify)
        ensures childJobs' == childJobs && multiset(notify') == multiset(notify)
      {
        ChecksumKnowsJob(uuid, qrId, childJobs', notify', uuid, qrId, childJobs, notify);
        WiringHasBorder(childJobs', notify');
        FixedIsOnly(once, entries, |childJobs|, |childJobs'|);
        SameBorderSameWiring(childJobs, notify, childJobs', notify');
      }
    } else {
      var n' := LooseMoves(once, entries, |childJobs|);
      var childJobs', notify' := BorderHasWiring(entries, n');
      ChecksumIsStream(uuid, qrId, childJobs, notify);
      ChecksumIsStream(uuid, qrId, childJobs', notify');
      assert childJobs' != childJobs;
    }
  }

  /** The least case that is not: children without an impact and notified jobs are added alike, so
      a job with the child k has the checksum of one that notifies k. */
  lemma ChildrenAndNotifiesMix(uuid: Uuid, qrId: QrId, k: Uuid)
    ensures ChecksumOf(uuid, qrId, map[k := None], []) == ChecksumOf(uuid, qrId, map[], [k])
  {
    var base := BaseOf(uuid, qrId);
    var none: seq<Uuid>, one := [], [k];
    OneKey(k);
    var child: map<Uuid, Option<Impact>>, empty: map<Uuid, Option<Impact>> := map[k := None], map[];
    assert child.Keys == {k} && empty.Keys == {};
    assert one[..|one| - 1] == none;
    assert AddChildren(base, child, one) == AddText(AddChildren(base, child, none), k);
    assert Sort(CompareStrings, one) == one;
    assert AddTexts(base, one) == AddText(AddTexts(base, none), k);
  }

  lemma OneKey(k: Uuid)
    ensures SortedKeys({k}) == [k] && SortedKeys({}) == []
  {
    var keys := SortedKeys({k});
    SortPermutes(CompareStrings, Listed({k}));
    assert |keys| == |multiset({k})| == 1;
    assert keys[0] in keys;
    SortPermutes(CompareStrings, Listed({}));
    assert |SortedKeys({})| == 0;
  }
}
