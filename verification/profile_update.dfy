/**
 * The profile update of usersRepository.go (`UpdateProfile`): one
 * `"column" = $k?` entry per non-empty profile field, the `?` marker turned
 * into "," on every entry but the last and dropped from the last, and a
 * closing `WHERE "id" = $n` with n the number of bound values.
 */
module ProfileUpdate {
  import opened SqlText
  import opened Entities
  import opened Db

  /** The profile fields the statement can assign, in the order the code tests them. */
  datatype Field = FirstName | LastName | Email | Phone | Avatar

  const FieldOrder: seq<Field> := [FirstName, LastName, Email, Phone, Avatar]

  function FieldName(f: Field): string
  {
    match f
    case FirstName => "fname"
    case LastName => "lname"
    case Email => "email"
    case Phone => "phone"
    case Avatar => "avatar"
  }

  function FieldValue(req: UserUpdate, f: Field): string
  {
    match f
    case FirstName => req.firstName
    case LastName => req.lastName
    case Email => req.email
    case Phone => req.phone
    case Avatar => req.avatar
  }

  /** The fields of `fs` that the request supplies (non-empty), in the order of `fs`. */
  function SuppliedFields(req: UserUpdate, fs: seq<Field>): (r: seq<Field>)
    ensures |r| <= |fs|
  {
    if fs == [] then []
    else
      var init := SuppliedFields(req, fs[..|fs| - 1]);
      var f := fs[|fs| - 1];
      assert fs == fs[..|fs| - 1] + [f];
      if FieldValue(req, f) != "" then init + [f] else init
  }

  /** An assignment without its marker: `"column" = $n` on a new line. */
  function Assignment(f: Field, n: nat): string
  {
    "\n\t\t\"" + FieldName(f) + "\" = " + Placeholder(n)
  }

  /** The entry the code pushes on its stack: the assignment, then the `?` marker. */
  function Entry(f: Field, n: nat): string
  {
    "\n\t\t\"" + FieldName(f) + "\" = " + Placeholder(n) + "?"
  }

  /** The entries for `fs`, numbered from 1. */
  function Entries(fs: seq<Field>): (r: seq<string>)
    ensures |r| == |fs|
    ensures forall i :: 0 <= i < |fs| ==> r[i] == Entry(fs[i], i + 1)
  {
    seq(|fs|, i requires 0 <= i < |fs| => Entry(fs[i], i + 1))
  }

  /** The assignments for `fs`, numbered from 1. */
  function Assignments(fs: seq<Field>): (r: seq<string>)
    ensures |r| == |fs|
    ensures forall i :: 0 <= i < |fs| ==> r[i] == Assignment(fs[i], i + 1)
  {
    seq(|fs|, i requires 0 <= i < |fs| => Assignment(fs[i], i + 1))
  }

  /** The values bound for `fs`, in order. */
  function Bound(req: UserUpdate, fs: seq<Field>): (r: seq<Value>)
    ensures |r| == |fs|
    ensures forall i :: 0 <= i < |fs| ==> r[i] == Str(FieldValue(req, fs[i]))
  {
    seq(|fs|, i requires 0 <= i < |fs| => Str(FieldValue(req, fs[i])))
  }

  const HeadSql: string := "\n\tUPDATE \"User\" SET"

  function CloseSql(n: nat): string
  {
    "\n\tWHERE \"id\" = " + Placeholder(n) + ";"
  }

  /** The fields the statement assigns. */
  function ProfileFields(req: UserUpdate): seq<Field>
  {
    SuppliedFields(req, FieldOrder)
  }

  /** The statement sent for `req`. */
  function ProfileSql(req: UserUpdate): string
  {
    HeadSql + Join(Assignments(ProfileFields(req)), ',') + CloseSql(|ProfileFields(req)| + 1)
  }

  /** The values bound for `req`: the supplied fields, then the id. */
  function ProfileValues(req: UserUpdate): seq<Value>
  {
    Bound(req, ProfileFields(req)) + [Str(req.id)]
  }

  const ProfileErrorPrefix: string := "update profile user failed: "

  // ---------------------------------------------------------------------------
  // The repository method

  /**
   * One `if req.X != ""` block: push the value and the entry numbered
   * `lastIndex`, then advance `lastIndex`.
   */
  method StackField(req: UserUpdate, f: Field, stack: seq<string>, values: seq<Value>, lastIndex: nat)
    returns (stack': seq<string>, values': seq<Value>, lastIndex': nat)
    ensures FieldValue(req, f) != "" ==>
      values' == values + [Str(FieldValue(req, f))] && stack' == stack + [Entry(f, lastIndex)]
      && lastIndex' == lastIndex + 1
    ensures FieldValue(req, f) == "" ==> values' == values && stack' == stack && lastIndex' == lastIndex
  {
    stack', values', lastIndex' := stack, values, lastIndex;
    if FieldValue(req, f) != "" {
      values' := values' + [Str(FieldValue(req, f))];
      stack' := stack' + [Entry(f, lastIndex')];
      lastIndex' := lastIndex' + 1;
    }
  }

  /** The blocks for the fields `fs` have run on an empty stack. */
  ghost predicate Stacked(req: UserUpdate, fs: seq<Field>, stack: seq<string>, values: seq<Value>, lastIndex: nat)
  {
    var s := SuppliedFields(req, fs);
    values == Bound(req, s) && stack == Entries(s) && lastIndex == |values| + 1
  }

  lemma SuppliedSnoc(req: UserUpdate, fs: seq<Field>, f: Field)
    ensures SuppliedFields(req, fs + [f]) == SuppliedFields(req, fs) + (if FieldValue(req, f) != "" then [f] else [])
  {
    assert (fs + [f])[..|fs|] == fs;
  }

  /** One more block keeps `Stacked`. */
  lemma Advance(req: UserUpdate, fs: seq<Field>, f: Field, sa: seq<string>, va: seq<Value>, la: nat,
                sb: seq<string>, vb: seq<Value>, lb: nat)
    requires Stacked(req, fs, sa, va, la)
    requires FieldValue(req, f) != "" ==> vb == va + [Str(FieldValue(req, f))] && sb == sa + [Entry(f, la)] && lb == la + 1
    requires FieldValue(req, f) == "" ==> vb == va && sb == sa && lb == la
    ensures Stacked(req, fs + [f], sb, vb, lb)
  {
    var s := SuppliedFields(req, fs);
    SuppliedSnoc(req, fs, f);
    if FieldValue(req, f) != "" {
      BoundSnoc(req, s, f);
      EntriesSnoc(s, f);
    }
  }

  lemma BoundSnoc(req: UserUpdate, s: seq<Field>, f: Field)
    ensures Bound(req, s + [f]) == Bound(req, s) + [Str(FieldValue(req, f))]
  {
  }

  lemma EntriesSnoc(s: seq<Field>, f: Field)
    ensures Entries(s + [f]) == Entries(s) + [Entry(f, |s| + 1)]
  {
  }

  /** The five field blocks of `UpdateProfile`, in order. */
  method StackFields(req: UserUpdate) returns (stack: seq<string>, values: seq<Value>, lastIndex: nat)
    ensures stack == Entries(ProfileFields(req)) && values == Bound(req, ProfileFields(req))
    ensures lastIndex == |values| + 1
  {
    stack, values, lastIndex := [], [], 1;
    assert Stacked(req, FieldOrder[..0], stack, values, lastIndex);
    for j := 0 to |FieldOrder|
      invariant Stacked(req, FieldOrder[..j], stack, values, lastIndex)
    {
      var s, v, l := StackField(req, FieldOrder[j], stack, values, lastIndex);
      Advance(req, FieldOrder[..j], FieldOrder[j], stack, values, lastIndex, s, v, l);
      assert FieldOrder[..j + 1] == FieldOrder[..j] + [FieldOrder[j]];
      stack, values, lastIndex := s, v, l;
    }
    assert FieldOrder[..|FieldOrder|] == FieldOrder;
  }

  /** One round of the joining loop of `UpdateProfile`: the i-th entry with its marker replaced. */
  lemma JoinRound(req: UserUpdate, i: nat, q: string)
    requires i < |ProfileFields(req)|
    requires q == HeadSql + JoinedSoFar(Assignments(ProfileFields(req)), i)
    ensures var fields := Assignments(ProfileFields(req)); var e := Entries(ProfileFields(req))[i];
      (i != |fields| - 1 ==> q + ReplaceFirst(e, '?', ",") == HeadSql + JoinedSoFar(fields, i + 1))
      && (i == |fields| - 1 ==> q + ReplaceFirst(e, '?', "") == HeadSql + JoinedSoFar(fields, i + 1))
  {
    var fs := ProfileFields(req);
    var fields := Assignments(fs);
    var a := Assignment(fs[i], i + 1);
    EntryReplace(fs[i], i + 1);
    JoinedStep(HeadSql, fields, i);
    assert fields[i] == a;
    assert q + (a + ",") == q + a + ",";
  }

  /**
   * `UpdateProfile`: builds the statement, then sends it; whether the
   * driver fails, and its error text, are inputs.
   */
  method UpdateProfile(req: UserUpdate, execFails: bool, dbErr: string) returns (sent: Statement, err: Option<string>)
    ensures sent == Statement(ProfileSql(req), ProfileValues(req))
    ensures err == if execFails then Some(ProfileErrorPrefix + dbErr) else None
  {
    var queryWhereStack, values, lastIndex := StackFields(req);
    var query := HeadSql;
    values := values + [Str(req.id)];
    var queryClose := CloseSql(lastIndex);
    var fields := Assignments(ProfileFields(req));
    for i := 0 to |queryWhereStack|
      invariant query == HeadSql + JoinedSoFar(fields, i)
    {
      var q := query;
      JoinRound(req, i, q);
      if i != |queryWhereStack| - 1 {
        query := q + ReplaceFirst(queryWhereStack[i], '?', ",");
      } else {
        query := q + ReplaceFirst(queryWhereStack[i], '?', "");
      }
    }
    if |fields| == 0 {
      assert query == HeadSql + Join(fields, ',');
    }
    query := query + queryClose;
    sent := Statement(query, values);
    if execFails {
      err := Some(ProfileErrorPrefix + dbErr);
    } else {
      err := None;
    }
  }

  // ---------------------------------------------------------------------------
  // Properties

  lemma NameFree(f: Field)
    ensures Free(FieldName(f), '$') && Free(FieldName(f), ',') && Free(FieldName(f), '?')
  {
  }

  /** The text of an assignment before its placeholder. */
  function AssignmentHead(f: Field): string
  {
    "\n\t\t\"" + FieldName(f) + "\" = "
  }

  lemma AssignmentHeadFree(f: Field)
    ensures Free(AssignmentHead(f), '$') && Free(AssignmentHead(f), ',') && Free(AssignmentHead(f), '?')
  {
    var a, b := "\n\t\t\"", "\" = ";
    NameFree(f);
    assert Free(a, '$') && Free(b, '$') && Free(a, ',') && Free(b, ',') && Free(a, '?') && Free(b, '?');
    FreeConcat(a, FieldName(f), '$');
    FreeConcat(a + FieldName(f), b, '$');
    FreeConcat(a, FieldName(f), ',');
    FreeConcat(a + FieldName(f), b, ',');
    FreeConcat(a, FieldName(f), '?');
    FreeConcat(a + FieldName(f), b, '?');
  }

  /** An assignment carries its one placeholder and neither "," nor "?". */
  lemma AssignmentPlaceholders(f: Field, n: nat)
    ensures Placeholders(Assignment(f, n)) == [n] && Closed(Assignment(f, n))
    ensures Free(Assignment(f, n), ',') && Free(Assignment(f, n), '?')
  {
    assert Assignment(f, n) == AssignmentHead(f) + Placeholder(n);
    AssignmentHeadFree(f);
    PlaceholdersNone(AssignmentHead(f));
    PlaceholderReads(n);
    PlaceholdersConcat(AssignmentHead(f), Placeholder(n));
    PlaceholderFree(n, ',');
    PlaceholderFree(n, '?');
    FreeConcat(AssignmentHead(f), Placeholder(n), ',');
    FreeConcat(AssignmentHead(f), Placeholder(n), '?');
  }

  /** Replacing the marker of an entry gives the assignment followed by the replacement. */
  lemma EntryReplace(f: Field, n: nat)
    ensures ReplaceFirst(Entry(f, n), '?', ",") == Assignment(f, n) + ","
    ensures ReplaceFirst(Entry(f, n), '?', "") == Assignment(f, n)
  {
    AssignmentPlaceholders(f, n);
    assert Entry(f, n) == Assignment(f, n) + ['?'] + "";
    ReplaceFirstAt(Assignment(f, n), '?', ",", "");
    ReplaceFirstAt(Assignment(f, n), '?', "", "");
  }

  /** An element is kept exactly when it is in the list and supplied. */
  lemma {:induction false} SuppliedMembers(req: UserUpdate, fs: seq<Field>)
    ensures forall f :: f in SuppliedFields(req, fs) <==> f in fs && FieldValue(req, f) != ""
  {
    if fs != [] {
      var init := fs[..|fs| - 1];
      SuppliedMembers(req, init);
      assert fs == init + [fs[|fs| - 1]];
      SuppliedSnoc(req, init, fs[|fs| - 1]);
    }
  }

  /** A field is assigned iff the request supplies it; dob never is. */
  lemma ProfileFieldsExact(req: UserUpdate, f: Field)
    ensures f in ProfileFields(req) <==> FieldValue(req, f) != ""
  {
    SuppliedMembers(req, FieldOrder);
    assert f in FieldOrder;
  }

  /** The assigned fields are the field list with the empty ones dropped, in list order. */
  lemma {:induction false} SuppliedOrdered(req: UserUpdate, fs: seq<Field>) returns (idx: seq<nat>)
    ensures Embeds(SuppliedFields(req, fs), fs, idx)
  {
    if fs == [] {
      idx := [];
    } else {
      var init := fs[..|fs| - 1];
      var f := fs[|fs| - 1];
      assert fs == init + [f];
      SuppliedSnoc(req, init, f);
      var before := SuppliedOrdered(req, init);
      if FieldValue(req, f) != "" {
        EmbedsKeep(SuppliedFields(req, init), init, before, f);
        idx := before + [|init|];
      } else {
        EmbedsDrop(SuppliedFields(req, init), init, before, f);
        idx := before;
      }
    }
  }

  /** The date of birth takes no part in the statement. */
  lemma DobIgnored(req: UserUpdate, dob: string)
    ensures ProfileSql(req.(dob := dob)) == ProfileSql(req)
    ensures ProfileValues(req.(dob := dob)) == ProfileValues(req)
  {
    var r := req.(dob := dob);
    assert forall f :: FieldValue(r, f) == FieldValue(req, f);
    SuppliedSame(req, r, FieldOrder);
  }

  lemma {:induction false} SuppliedSame(a: UserUpdate, b: UserUpdate, fs: seq<Field>)
    requires forall f :: FieldValue(a, f) == FieldValue(b, f)
    ensures SuppliedFields(a, fs) == SuppliedFields(b, fs)
  {
    if fs != [] {
      SuppliedSame(a, b, fs[..|fs| - 1]);
    }
  }

  /** Assignment k binds the k-th value; the id is the last value. */
  lemma ProfileValuesAligned(req: UserUpdate)
    ensures var s := ProfileFields(req); var v := ProfileValues(req);
      |v| == |s| + 1 && v[|s|] == Str(req.id)
      && forall k :: 0 <= k < |s| ==> v[k] == Str(FieldValue(req, s[k])) && Assignments(s)[k] == Assignment(s[k], k + 1)
  {
  }

  /** The joined SET list reads back as placeholders 1..|fs| and holds no "?". */
  lemma {:induction false} SetListPlaceholders(fs: seq<Field>)
    ensures Placeholders(Join(Assignments(fs), ',')) == OneTo(|fs|)
    ensures Closed(Join(Assignments(fs), ',')) && Free(Join(Assignments(fs), ','), '?')
  {
    var n := |fs|;
    if n == 1 {
      AssignmentPlaceholders(fs[0], 1);
    } else if n > 1 {
      var init := fs[..n - 1];
      var x := Assignment(fs[n - 1], n);
      assert fs == init + [fs[n - 1]];
      assert Assignments(fs) == Assignments(init) + [x];
      SetListPlaceholders(init);
      var j := Join(Assignments(init), ',');
      JoinSnoc(Assignments(init), x, ',');
      AssignmentPlaceholders(fs[n - 1], n);
      PlaceholdersNone([',']);
      PlaceholdersConcat(j, [',']);
      PlaceholdersConcat(j + [','], x);
      OneToSnoc(n - 1);
      ClosedConcat(j, [',']);
      ClosedConcat(j + [','], x);
      FreeConcat(j, [','], '?');
      FreeConcat(j + [','], x, '?');
    }
  }

  lemma HeadSqlFree()
    ensures Free(HeadSql, '$') && Free(HeadSql, '?')
  {
  }

  lemma HeadSqlPlaceholders()
    ensures Placeholders(HeadSql) == [] && Free(HeadSql, '?')
  {
    HeadSqlFree();
    PlaceholdersNone(HeadSql);
  }

  lemma ClosePlaceholders(n: nat)
    ensures Placeholders(CloseSql(n)) == [n] && Closed(CloseSql(n)) && Free(CloseSql(n), '?')
  {
    var head := "\n\tWHERE \"id\" = ";
    assert CloseSql(n) == head + Placeholder(n) + ";";
    CloseWordsFree();
    PlaceholderReads(n);
    PlaceholdersConcat(head, Placeholder(n));
    assert Placeholders(head + Placeholder(n)) == [n];
    PlaceholdersConcat(head + Placeholder(n), ";");
    PlaceholderFree(n, '?');
    FreeConcat(head, Placeholder(n), '?');
    FreeConcat(head + Placeholder(n), ";", '?');
  }

  lemma CloseWordsFree()
    ensures Placeholders("\n\tWHERE \"id\" = ") == [] && Free("\n\tWHERE \"id\" = ", '?')
    ensures Placeholders(";") == [] && Free(";", '?') && Closed(";")
  {
    assert Free("\n\tWHERE \"id\" = ", '$');
    assert Free("\n\tWHERE \"id\" = ", '?');
    PlaceholdersNone("\n\tWHERE \"id\" = ");
    PlaceholdersNone(";");
  }

  lemma StatementPlaceholders(fs: seq<Field>)
    ensures var sql := HeadSql + Join(Assignments(fs), ',') + CloseSql(|fs| + 1);
      Placeholders(sql) == OneTo(|fs| + 1) && Free(sql, '?')
  {
    var j := Join(Assignments(fs), ',');
    HeadSqlPlaceholders();
    SetListPlaceholders(fs);
    ClosePlaceholders(|fs| + 1);
    PlaceholdersFramed(HeadSql, j, CloseSql(|fs| + 1), |fs|);
    FreeConcat(HeadSql, j, '?');
    FreeConcat(HeadSql + j, CloseSql(|fs| + 1), '?');
  }

  /**
   * The statement's placeholders are $1..$n left to right, n the number of
   * bound values (so the WHERE index is that number), and no `?` marker is
   * left in it.
   */
  lemma ProfilePlaceholders(req: UserUpdate)
    ensures Placeholders(ProfileSql(req)) == OneTo(|ProfileValues(req)|)
    ensures Free(ProfileSql(req), '?')
  {
    StatementPlaceholders(ProfileFields(req));
  }

  /** With at least one field, splitting the SET list on "," gives back the assignments: no trailing comma. */
  lemma SetListSplit(req: UserUpdate)
    requires ProfileFields(req) != []
    ensures Split(Join(Assignments(ProfileFields(req)), ','), ',') == Assignments(ProfileFields(req))
  {
    var s := ProfileFields(req);
    forall k | 0 <= k < |s|
      ensures Free(Assignments(s)[k], ',')
    {
      AssignmentPlaceholders(s[k], k + 1);
    }
    SplitJoin(Assignments(s), ',');
  }

  /**
   * With no field supplied the SET clause is empty: `SET` is followed
   * directly by `WHERE "id" = $1`, a statement the database rejects.
   */
  lemma EmptyUpdateDefect(req: UserUpdate)
    requires forall f :: FieldValue(req, f) == ""
    ensures ProfileSql(req) == HeadSql + CloseSql(1)
    ensures ProfileValues(req) == [Str(req.id)]
  {
    var s := ProfileFields(req);
    if s != [] {
      ProfileFieldsExact(req, s[0]);
      assert false;
    }
    assert HeadSql + Join(Assignments(s), ',') == HeadSql;
  }
}
