// The content manager of the operator console: uploaded resources are
// classified by MIME type and stored one by one; a course is generated from
// a resource under a guard that refuses a second generation while one is
// running, its topic being the file name without its extension; the course
// tab lists only custom courses, newest id first, and the FAQ tab lists the
// stored entries newest first. Clock readings, random id suffixes, the AI
// answer and what the browser database returns are inputs.
module ContentManagement {
  import opened Wrappers
  import opened JsValue
  import opened JsText
  import opened SeqFilter
  import opened StableSort

  /** A file the operator picked or dropped: name, MIME type, size in bytes. */
  datatype Upload = Upload(name: string, mime: string, sizeBytes: nat)

  /** A stored resource; `date` is the upload time in milliseconds. */
  datatype StoredFile = StoredFile(id: string, name: string, sizeBytes: nat, fileType: string,
                                   date: nat, status: string, isGenerated: bool)

  /** The type recorded for a MIME type: any `image/` type is 'image', any
    * `video/` type is 'video', exactly `application/pdf` is 'pdf', and
    * everything else is 'other'. */
  function FileType(mime: string): (t: string)
    ensures t == "image" <==> StartsWith(mime, "image/")
    ensures t == "video" <==> StartsWith(mime, "video/")
    ensures t == "pdf" <==> mime == "application/pdf"
    ensures t == "other" <==> !StartsWith(mime, "image/") && !StartsWith(mime, "video/") && mime != "application/pdf"
  {
    if StartsWith(mime, "image/") then "image"
    else if StartsWith(mime, "video/") then
      assert mime[0] == 'v';
      "video"
    else if mime == "application/pdf" then "pdf"
    else "other"
  }

  /** The record stored for one upload, identified by the clock reading
    * followed by a random base-36 suffix and dated by the same reading. */
  function NewFileRecord(u: Upload, nowMs: nat, suffix: string): (f: StoredFile)
    ensures f.id == NatToString(nowMs) + suffix && f.date == nowMs
    ensures f.name == u.name && f.sizeBytes == u.sizeBytes && f.fileType == FileType(u.mime)
    ensures f.status == "Uploaded" && !f.isGenerated
  {
    StoredFile(NatToString(nowMs) + suffix, u.name, u.sizeBytes, FileType(u.mime), nowMs, "Uploaded", false)
  }

  /** The stored files paired with their dates, for the date sort. */
  function DateEntries(s: seq<StoredFile>): (r: seq<Entry<StoredFile>>)
    ensures |r| == |s|
    ensures forall i :: 0 <= i < |s| ==> r[i] == (s[i], s[i].date)
  {
    if s == [] then [] else [(s[0], s[0].date)] + DateEntries(s[1..])
  }

  function Firsts(e: seq<Entry<StoredFile>>): (r: seq<StoredFile>)
    ensures |r| == |e|
    ensures forall i :: 0 <= i < |e| ==> r[i] == e[i].0
  {
    if e == [] then [] else [e[0].0] + Firsts(e[1..])
  }

  /** The file list as loaded: sorted by date, newest first, files with the
    * same date keeping their stored order. */
  function FilesNewestFirst(saved: seq<StoredFile>): seq<StoredFile>
  {
    Firsts(SortDesc(DateEntries(saved)))
  }

  function DateIs(d: nat): StoredFile -> bool
  {
    (f: StoredFile) => f.date == d
  }

  /** Over entries that pair each file with its own date, the files of one
    * date are the files of the entries with that score. */
  lemma {:induction false} FirstsWithScore(e: seq<Entry<StoredFile>>, d: nat)
    requires forall i :: 0 <= i < |e| ==> e[i].1 == e[i].0.date
    ensures Filter(DateIs(d), Firsts(e)) == Firsts(WithScore(e, d))
  {
    if e != [] {
      FirstsWithScore(e[1..], d);
      assert Firsts(e)[1..] == Firsts(e[1..]);
    }
  }

  /** Files with the same date keep their stored order in the loaded list. */
  lemma FilesNewestFirstStable(saved: seq<StoredFile>, d: nat)
    ensures Filter(DateIs(d), FilesNewestFirst(saved)) == Filter(DateIs(d), saved)
  {
    var entries := DateEntries(saved);
    SortedEntriesPairDates(saved);
    FirstsWithScore(SortDesc(entries), d);
    SortDescStable(entries, d);
    FirstsWithScore(entries, d);
    assert Firsts(entries) == saved;
  }

  /** Each entry the sort yields still pairs a file with its own date. */
  lemma SortedEntriesPairDates(saved: seq<StoredFile>)
    ensures forall i :: 0 <= i < |SortDesc(DateEntries(saved))| ==>
      SortDesc(DateEntries(saved))[i].1 == SortDesc(DateEntries(saved))[i].0.date
  {
    var d := DateEntries(saved);
    var e := SortDesc(d);
    SortDescSorted(d);
    forall i | 0 <= i < |e| ensures e[i].1 == e[i].0.date {
      assert e[i] in multiset(d);
      var k :| 0 <= k < |d| && d[k] == e[i];
    }
  }

  /** The loaded list is the stored files, each once, newest first. */
  lemma FilesNewestFirstSorted(saved: seq<StoredFile>)
    ensures multiset(DateEntries(FilesNewestFirst(saved))) == multiset(DateEntries(saved))
    ensures forall i, j :: 0 <= i < j < |saved| ==> FilesNewestFirst(saved)[i].date >= FilesNewestFirst(saved)[j].date
  {
    var e := SortDesc(DateEntries(saved));
    SortDescSorted(DateEntries(saved));
    SortedEntriesPairDates(saved);
    var r := Firsts(e);
    assert DateEntries(r) == e;
  }

  // ---------------------------------------------------------------------
  // The topic of a generated course

  predicate FreeOfSlashAndDot(s: string)
  {
    forall k :: 0 <= k < |s| ==> s[k] != '/' && s[k] != '.'
  }

  /** `name` has a '.' at `i` followed by a non-empty run, up to the end,
    * free of '/' and '.': where the pattern `\.[^/.]+$` matches. */
  predicate ExtensionAt(name: string, i: int)
  {
    0 <= i < |name| - 1 && name[i] == '.' && FreeOfSlashAndDot(name[i + 1..])
  }

  /** No '.' follows a match. */
  lemma NoDotAfterExtension(name: string, i: int)
    requires ExtensionAt(name, i)
    ensures forall k :: i < k < |name| ==> name[k] != '.'
  {
    forall k | i < k < |name| ensures name[k] != '.' {
      assert name[i + 1..][k - i - 1] == name[k];
    }
  }

  /** The pattern matches at one place at most. */
  lemma ExtensionUnique(name: string, i: int, j: int)
    requires ExtensionAt(name, i) && ExtensionAt(name, j)
    ensures i == j
  {
    NoDotAfterExtension(name, i);
    NoDotAfterExtension(name, j);
  }

  /** For a name ending in a character other than '/' and '.', a match is
    * the '.' just before that character or a match in the name without it. */
  lemma ExtensionOfPrefix(name: string, i: int)
    requires |name| >= 2 && name[|name| - 1] != '/' && name[|name| - 1] != '.'
    ensures ExtensionAt(name, i) <==> (i == |name| - 2 && name[i] == '.') || ExtensionAt(name[..|name| - 1], i)
  {
    var p := name[..|name| - 1];
    if 0 <= i < |name| - 1 {
      assert name[i + 1..] == p[i + 1..] + [name[|name| - 1]];
      if ExtensionAt(name, i) && i < |name| - 2 {
        var q := p[i + 1..];
        assert FreeOfSlashAndDot(q) by {
          forall k | 0 <= k < |q| ensures q[k] != '/' && q[k] != '.' {
            assert q[k] == name[i + 1..][k];
          }
        }
      }
    }
  }

  /** A name ending in '/' or '.' has no match. */
  lemma NoExtensionAfterSlashOrDot(name: string, i: int)
    requires |name| >= 1 && (name[|name| - 1] == '/' || name[|name| - 1] == '.')
    ensures !ExtensionAt(name, i)
  {
    if 0 <= i < |name| - 1 {
      assert name[i + 1..][|name| - 2 - i] == name[|name| - 1];
    }
  }

  /** Where the pattern matches, scanning from the end of the name. */
  function FindExtension(name: string): (r: Option<nat>)
    ensures r.Some? ==> ExtensionAt(name, r.value)
    ensures r.None? ==> forall i :: !ExtensionAt(name, i)
  {
    if |name| < 2 then None
    else if name[|name| - 1] == '/' || name[|name| - 1] == '.' then
      assert forall i :: !ExtensionAt(name, i) by {
        forall i ensures !ExtensionAt(name, i) {
          NoExtensionAfterSlashOrDot(name, i);
        }
      }
      None
    else
      assert forall i :: ExtensionAt(name, i) <==> (i == |name| - 2 && name[i] == '.') || ExtensionAt(name[..|name| - 1], i) by {
        forall i ensures ExtensionAt(name, i) <==> (i == |name| - 2 && name[i] == '.') || ExtensionAt(name[..|name| - 1], i) {
          ExtensionOfPrefix(name, i);
        }
      }
      if name[|name| - 2] == '.' then Some(|name| - 2)
      else FindExtension(name[..|name| - 1])
  }

  /** `file.name.replace(/\.[^/.]+$/, "")`: the name without a final
    * extension, where an extension is a '.' followed by a non-empty run of
    * characters other than '/' and '.' up to the end; a name without one is
    * kept whole. */
  function Topic(name: string): (r: string)
    ensures StartsWith(name, r)
    ensures forall i :: ExtensionAt(name, i) ==> r == name[..i]
    ensures (forall i :: !ExtensionAt(name, i)) ==> r == name
  {
    var e := FindExtension(name);
    if e.Some? then
      assert forall i :: ExtensionAt(name, i) ==> i == e.value by {
        forall i | ExtensionAt(name, i) ensures i == e.value {
          ExtensionUnique(name, i, e.value);
        }
      }
      name[..e.value]
    else name
  }

  /** A base name with an extension gives back the base name, whatever the
    * base name holds (dots included). */
  lemma TopicOfNamed(base: string, ext: string)
    requires ext != [] && FreeOfSlashAndDot(ext)
    ensures Topic(base + "." + ext) == base
  {
    var name := base + "." + ext;
    assert name[|base| + 1..] == ext;
    assert ExtensionAt(name, |base|);
    assert name[..|base|] == base;
  }

  /** Only the last extension goes: 'archive.tar.gz' gives 'archive.tar',
    * and a name that is all extension, such as '.env', gives ''. */
  lemma TopicDropsOneExtension()
    ensures Topic("archive.tar.gz") == "archive.tar"
    ensures Topic(".env") == ""
    ensures Topic("notes.") == "notes."
  {
    TopicOfNamed("archive.tar", "gz");
    assert "archive.tar" + "." + "gz" == "archive.tar.gz";
    TopicOfNamed("", "env");
    assert "" + "." + "env" == ".env";
    assert forall i :: !ExtensionAt("notes.", i) by {
      forall i ensures !ExtensionAt("notes.", i) {
        NoExtensionAfterSlashOrDot("notes.", i);
      }
    }
  }

  /** The text sent in place of the file's contents, since extraction is
    * switched off. */
  function FallbackContent(name: string): (r: string)
    ensures StartsWith(r, "File Name: ") && Includes(r, name)
  {
    var r := "File Name: " + name + ". (Content extraction not supported or failed).";
    assert OccursAt(r, name, 11) by {
      assert r[11..11 + |name|] == name;
    }
    IncludesIff(r, name);
    r
  }

  /** What the course generator is asked for. */
  datatype CourseRequest = CourseRequest(topic: string, content: string, language: string)

  /** The generator's answer: a course, a quiz and possibly FAQ entries. */
  datatype Generated = Generated(course: Option<Record>, quiz: Option<Value>, faq: Option<seq<Record>>)

  /** `result && result.course && result.quiz`. */
  predicate Succeeded(result: Option<Generated>)
  {
    result.Some? && result.value.course.Some? && Truthy(result.value.quiz)
  }

  /** A stored course: its id, its `isCustom` flag (None when absent) and
    * its other fields. */
  datatype Course = Course(id: string, isCustom: Option<Value>, fields: Record)

  /** What a successful generation stores: the course, its quiz under the
    * course's id, and the FAQ entries when there are any. */
  datatype Writes = Writes(course: Course, quizFor: string, quiz: Value, faqs: Option<seq<Record>>)

  /** `result.faq.map(({ id: _, ...rest }) => rest)`: every entry without its
    * id, all other fields kept. */
  function StripIds(faqs: seq<Record>): (r: seq<Record>)
    ensures |r| == |faqs|
    ensures forall i :: 0 <= i < |r| ==> "id" !in r[i]
    ensures forall i, k :: 0 <= i < |r| && k != "id" ==> Get(r[i], k) == Get(faqs[i], k)
  {
    seq(|faqs|, i requires 0 <= i < |faqs| => faqs[i] - {"id"})
  }

  /** The writes of a successful generation at clock reading `nowMs`: the
    * course is the generated one with id `gen_<nowMs>` and marked custom. */
  function WritesOf(g: Generated, nowMs: nat): (w: Writes)
    requires g.course.Some? && g.quiz.Some?
    ensures w.course.id == "gen_" + NatToString(nowMs) && w.quizFor == w.course.id
    ensures Truthy(w.course.isCustom)
    ensures forall k :: k != "id" && k != "isCustom" ==> Get(w.course.fields, k) == Get(g.course.value, k)
    ensures g.faq.Some? <==> w.faqs.Some?
    ensures g.faq.Some? ==> w.faqs.value == StripIds(g.faq.value)
  {
    var id := "gen_" + NatToString(nowMs);
    Writes(Course(id, Some(Bool(true)), g.course.value - {"id", "isCustom"}), id, g.quiz.value,
           if g.faq.Some? then Some(StripIds(g.faq.value)) else None)
  }

  /** `prev.map(f => f.id === id ? { ...f, isGenerated: true } : f)`. */
  function MarkGenerated(files: seq<StoredFile>, id: string): (r: seq<StoredFile>)
    ensures |r| == |files|
    ensures forall i :: 0 <= i < |r| ==> r[i].isGenerated == (files[i].isGenerated || files[i].id == id)
    ensures forall i :: 0 <= i < |r| ==> r[i] == files[i].(isGenerated := r[i].isGenerated)
  {
    if files == [] then []
    else
      var head := if files[0].id == id then files[0].(isGenerated := true) else files[0];
      var rest := MarkGenerated(files[1..], id);
      assert forall i :: 1 <= i < |files| ==> ([head] + rest)[i] == rest[i - 1];
      [head] + rest
  }

  /** Marking only touches the files with that id, and marking twice is
    * marking once. */
  lemma {:induction false} MarkGeneratedOthersUnchanged(files: seq<StoredFile>, id: string)
    ensures forall i :: 0 <= i < |files| && files[i].id != id ==> MarkGenerated(files, id)[i] == files[i]
    ensures MarkGenerated(MarkGenerated(files, id), id) == MarkGenerated(files, id)
  {
    if files != [] {
      MarkGeneratedOthersUnchanged(files[1..], id);
      assert MarkGenerated(files, id)[1..] == MarkGenerated(files[1..], id);
    }
  }

  // ---------------------------------------------------------------------
  // The course list

  /** JavaScript's `a < b` on strings: the first differing character
    * decides, and a proper prefix comes first. */
  predicate StrLess(a: string, b: string)
  {
    if a == [] then b != []
    else if b == [] then false
    else if a[0] != b[0] then a[0] < b[0]
    else StrLess(a[1..], b[1..])
  }

  lemma {:induction false} StrLessAsymmetric(a: string, b: string)
    ensures !(StrLess(a, b) && StrLess(b, a))
  {
    if a != [] && b != [] && a[0] == b[0] {
      StrLessAsymmetric(a[1..], b[1..]);
    }
  }

  lemma {:induction false} StrLessTotal(a: string, b: string)
    ensures a == b || StrLess(a, b) || StrLess(b, a)
  {
    if a != [] && b != [] && a[0] == b[0] {
      StrLessTotal(a[1..], b[1..]);
      if a[1..] == b[1..] {
        assert a == [a[0]] + a[1..] && b == [b[0]] + b[1..];
      }
    }
  }

  lemma {:induction false} StrLessTransitive(a: string, b: string, c: string)
    requires StrLess(a, b) && StrLess(b, c)
    ensures StrLess(a, c)
  {
    if a != [] && a[0] == b[0] && b[0] == c[0] {
      StrLessTransitive(a[1..], b[1..], c[1..]);
    }
  }

  /** "Not below" is transitive as well. */
  lemma NotLessTransitive(a: string, b: string, c: string)
    requires !StrLess(a, b) && !StrLess(b, c)
    ensures !StrLess(a, c)
  {
    StrLessTotal(a, b);
    StrLessTotal(b, c);
    if StrLess(b, a) && StrLess(c, b) {
      StrLessTransitive(c, b, a);
      StrLessAsymmetric(a, c);
    } else if StrLess(b, a) {
      StrLessAsymmetric(a, c);
    } else if StrLess(c, b) {
      StrLessAsymmetric(a, c);
    }
  }

  predicate SortedByIdDesc(s: seq<Course>)
  {
    forall i, j :: 0 <= i < j < |s| ==> !StrLess(s[i].id, s[j].id)
  }

  /** Insert `x` before the first course whose id is not above its own. */
  function InsertById(x: Course, t: seq<Course>): (r: seq<Course>)
    ensures |r| == |t| + 1
    ensures multiset(r) == multiset(t) + multiset{x}
  {
    if t == [] || !StrLess(x.id, t[0].id) then [x] + t
    else
      assert t == [t[0]] + t[1..];
      [t[0]] + InsertById(x, t[1..])
  }

  lemma {:induction false} InsertByIdBounded(x: Course, t: seq<Course>, b: string)
    requires !StrLess(b, x.id)
    requires forall i :: 0 <= i < |t| ==> !StrLess(b, t[i].id)
    ensures forall i :: 0 <= i < |t| + 1 ==> !StrLess(b, InsertById(x, t)[i].id)
  {
    if t != [] && StrLess(x.id, t[0].id) {
      InsertByIdBounded(x, t[1..], b);
    }
  }

  lemma {:induction false} InsertByIdSorted(x: Course, t: seq<Course>)
    requires SortedByIdDesc(t)
    ensures SortedByIdDesc(InsertById(x, t))
  {
    if t == [] || !StrLess(x.id, t[0].id) {
      var r := [x] + t;
      forall i, j | 0 <= i < j < |r| ensures !StrLess(r[i].id, r[j].id) {
        if i == 0 {
          if j > 1 {
            NotLessTransitive(x.id, t[0].id, t[j - 1].id);
          }
        } else {
          assert r[i] == t[i - 1] && r[j] == t[j - 1];
        }
      }
    } else {
      InsertByIdSorted(x, t[1..]);
      StrLessAsymmetric(x.id, t[0].id);
      InsertByIdBounded(x, t[1..], t[0].id);
      var rest := InsertById(x, t[1..]);
      var r := [t[0]] + rest;
      forall i, j | 0 <= i < j < |r| ensures !StrLess(r[i].id, r[j].id) {
        if i == 0 {
          assert r[j] == rest[j - 1];
        } else {
          assert r[i] == rest[i - 1] && r[j] == rest[j - 1];
        }
      }
    }
  }

  /** `sort((a, b) => (b.id > a.id ? 1 : -1))`: by id, highest first. */
  function SortByIdDesc(s: seq<Course>): (r: seq<Course>)
    ensures multiset(r) == multiset(s)
    ensures SortedByIdDesc(r)
  {
    if s == [] then []
    else
      assert s == [s[0]] + s[1..];
      InsertByIdSorted(s[0], SortByIdDesc(s[1..]));
      InsertById(s[0], SortByIdDesc(s[1..]))
  }

  /** `savedCourses.filter(c => c.isCustom).sort(...)`: exactly the custom
    * courses, each as often as stored, highest id first. */
  function CustomNewestFirst(saved: seq<Course>): (r: seq<Course>)
    ensures multiset(r) == multiset(Filter((c: Course) => Truthy(c.isCustom), saved))
    ensures SortedByIdDesc(r)
    ensures forall c :: c in r <==> c in saved && Truthy(c.isCustom)
  {
    var custom := Filter((c: Course) => Truthy(c.isCustom), saved);
    forall c ensures c in custom <==> c in saved && Truthy(c.isCustom) {
      FilterMembership((c: Course) => Truthy(c.isCustom), saved, c);
    }
    var r := SortByIdDesc(custom);
    assert forall c :: c in r <==> c in multiset(r);
    r
  }

  /** `savedFaqs.reverse()`: the stored entries, last stored first. */
  function Reverse<T>(s: seq<T>): (r: seq<T>)
    ensures |r| == |s|
    ensures forall i :: 0 <= i < |s| ==> r[i] == s[|s| - 1 - i]
  {
    if s == [] then [] else Reverse(s[1..]) + [s[0]]
  }

  /** `generatingId` is set: a non-empty id. */
  predicate Busy(generatingId: Option<string>)
  {
    generatingId.Some? && generatingId.value != []
  }

  class ContentManagementState {
    const language: string
    var activeTab: string
    var files: seq<StoredFile>
    var courses: seq<Course>
    var faqs: seq<Record>
    var uploading: bool
    /** The id of the file a course is being generated from; null is None. */
    var generatingId: Option<string>

    constructor(language: string)
      ensures this.language == language && activeTab == "resources"
      ensures files == [] && courses == [] && faqs == []
      ensures !uploading && generatingId.None?
    {
      this.language := language;
      activeTab := "resources";
      files := [];
      courses := [];
      faqs := [];
      uploading := false;
      generatingId := None;
    }

    /** `loadFiles`: the stored files newest first; a failed read keeps the
      * list. */
    method LoadFiles(saved: Option<seq<StoredFile>>)
      modifies this
      ensures saved.Some? ==> files == FilesNewestFirst(saved.value)
      ensures saved.None? ==> files == old(files)
      ensures courses == old(courses) && faqs == old(faqs) && activeTab == old(activeTab)
      ensures uploading == old(uploading) && generatingId == old(generatingId)
    {
      if saved.Some? {
        files := FilesNewestFirst(saved.value);
      }
    }

    /** `loadCourses`: the custom courses, highest id first. */
    method LoadCourses(saved: Option<seq<Course>>)
      modifies this
      ensures saved.Some? ==> courses == CustomNewestFirst(saved.value)
      ensures saved.None? ==> courses == old(courses)
      ensures files == old(files) && faqs == old(faqs) && activeTab == old(activeTab)
      ensures uploading == old(uploading) && generatingId == old(generatingId)
    {
      if saved.Some? {
        courses := CustomNewestFirst(saved.value);
      }
    }

    /** `loadFAQs`: the stored entries, last stored first. */
    method LoadFaqs(saved: Option<seq<Record>>)
      modifies this
      ensures saved.Some? ==> faqs == Reverse(saved.value)
      ensures saved.None? ==> faqs == old(faqs)
      ensures files == old(files) && courses == old(courses) && activeTab == old(activeTab)
      ensures uploading == old(uploading) && generatingId == old(generatingId)
    {
      if saved.Some? {
        faqs := Reverse(saved.value);
      }
    }

    /** `processFiles`: one record per upload, stored in order, each with
    * its own clock reading and random suffix; then the file list is
    * reloaded and the resources tab shown. The answer is the sequence of
    * records handed to the database. */
    method ProcessFiles(uploads: seq<Upload>, stamps: seq<(nat, string)>, reloaded: Option<seq<StoredFile>>)
      returns (saved: seq<StoredFile>)
      requires |stamps| == |uploads|
      modifies this
      ensures |saved| == |uploads|
      ensures forall i :: 0 <= i < |uploads| ==> saved[i] == NewFileRecord(uploads[i], stamps[i].0, stamps[i].1)
      ensures reloaded.Some? ==> files == FilesNewestFirst(reloaded.value)
      ensures reloaded.None? ==> files == old(files)
      ensures activeTab == "resources" && !uploading
      ensures courses == old(courses) && faqs == old(faqs) && generatingId == old(generatingId)
    {
      uploading := true;
      saved := [];
      for i := 0 to |uploads|
        invariant |saved| == i
        invariant forall k :: 0 <= k < i ==> saved[k] == NewFileRecord(uploads[k], stamps[k].0, stamps[k].1)
      {
        saved := saved + [NewFileRecord(uploads[i], stamps[i].0, stamps[i].1)];
      }
      LoadFiles(reloaded);
      activeTab := "resources";
      uploading := false;
    }

    /** The start of `handleGenerateCourse`: refused while another
      * generation runs; otherwise the file becomes the one being generated
      * from and the generator is asked for a course on the file's topic. */
    method StartGenerate(file: StoredFile) returns (request: Option<CourseRequest>)
      modifies this
      ensures Busy(old(generatingId)) ==> request.None? && generatingId == old(generatingId)
      ensures !Busy(old(generatingId)) ==> generatingId == Some(file.id)
      ensures !Busy(old(generatingId)) ==> request == Some(CourseRequest(Topic(file.name), FallbackContent(file.name), language))
      ensures files == old(files) && courses == old(courses) && faqs == old(faqs)
      ensures activeTab == old(activeTab) && uploading == old(uploading)
    {
      if Busy(generatingId) {
        return None;
      }
      generatingId := Some(file.id);
      request := Some(CourseRequest(Topic(file.name), FallbackContent(file.name), language));
    }

    /** The rest of `handleGenerateCourse`, once the generator has answered
      * (None when it failed): on success the course, its quiz and the FAQ
      * entries without ids are stored, the file is marked generated and the
      * courses and FAQs are reloaded. In every case generation is over. */
    method FinishGenerate(file: StoredFile, result: Option<Generated>, nowMs: nat,
                          storedCourses: Option<seq<Course>>, storedFaqs: Option<seq<Record>>)
      returns (writes: Option<Writes>)
      modifies this
      ensures Succeeded(result) ==> writes == Some(WritesOf(result.value, nowMs))
      ensures Succeeded(result) ==> files == MarkGenerated(old(files), file.id)
      ensures Succeeded(result) && storedCourses.Some? ==> courses == CustomNewestFirst(storedCourses.value)
      ensures Succeeded(result) && storedFaqs.Some? ==> faqs == Reverse(storedFaqs.value)
      ensures Succeeded(result) && storedCourses.None? ==> courses == old(courses)
      ensures Succeeded(result) && storedFaqs.None? ==> faqs == old(faqs)
      ensures !Succeeded(result) ==> writes.None? && files == old(files) && courses == old(courses) && faqs == old(faqs)
      ensures generatingId.None?
      ensures activeTab == old(activeTab) && uploading == old(uploading)
    {
      writes := None;
      if Succeeded(result) {
        writes := Some(WritesOf(result.value, nowMs));
        files := MarkGenerated(files, file.id);
        LoadCourses(storedCourses);
        LoadFaqs(storedFaqs);
      }
      generatingId := None;
    }
  }

  /** A second click while a course is being generated from a stored file
    * asks for nothing: stored ids are never empty, so the first click
    * leaves generation running. */
  method OverlappingGenerate(page: ContentManagementState, first: StoredFile, second: StoredFile)
    returns (r1: Option<CourseRequest>, r2: Option<CourseRequest>)
    requires !Busy(page.generatingId) && first.id != []
    modifies page
    ensures r1.Some? && r2.None? && page.generatingId == Some(first.id)
  {
    r1 := page.StartGenerate(first);
    r2 := page.StartGenerate(second);
  }
}
