/**
 * Building the header record and one user's data record, as the export does:
 * start from the identity pair, append the field block, then the optional
 * columns, then the registration pair.
 */
module Rows {
  import opened Users
  import opened ExportArgs
  import opened Columns
  import Decimal
  import FieldFilter

  /** The header record, appended to one label at a time. */
  method BuildHeader(fields: seq<Field>, s: Settings) returns (header: seq<string>)
    ensures header == HeaderCells(Layout(fields, s))
  {
    header := ["User ID", "Username"];
    var i := 0;
    while i < |fields|
      invariant 0 <= i <= |fields|
      invariant header == HeaderCells([UserIdColumn, UsernameColumn] + FieldColumns(fields[..i]))
    {
      ghost var before := [UserIdColumn, UsernameColumn] + FieldColumns(fields[..i]);
      header := header + [fields[i].heading];
      assert header == HeaderCells(before + [FieldColumn(fields[i])]) by {
        HeaderCellsAppend(before, [FieldColumn(fields[i])]);
      }
      assert FieldColumns(fields[..i + 1]) == FieldColumns(fields[..i]) + [FieldColumn(fields[i])];
      assert before + [FieldColumn(fields[i])] == [UserIdColumn, UsernameColumn] + FieldColumns(fields[..i + 1]);
      i := i + 1;
    }
    assert fields[..i] == fields;
    ghost var done := [UserIdColumn, UsernameColumn] + FieldColumns(fields);

    if ShowActivation(s) {
      header := header + ["Activated?"];
    }
    assert header == HeaderCells(done + ActivationColumns(s)) by {
      HeaderCellsAppend(done, ActivationColumns(s));
    }
    done := done + ActivationColumns(s);

    if ShowExpiration(s) {
      header := header + ["Subscription", "Expires"];
    }
    assert header == HeaderCells(done + ExpirationColumns(s)) by {
      HeaderCellsAppend(done, ExpirationColumns(s));
    }
    done := done + ExpirationColumns(s);

    header := header + ["Registered", "IP"];
    assert header == HeaderCells(done + [RegisteredColumn, IpColumn]) by {
      HeaderCellsAppend(done, [RegisteredColumn, IpColumn]);
    }
  }

  /** The field block of a row: one value per effective field, in order. */
  function FieldValues(fields: seq<Field>, id: UserId, user: User, meta: Meta): (r: seq<string>)
    ensures |r| == |fields|
    ensures forall i :: 0 <= i < |fields| ==> r[i] == FieldValue(fields[i], id, user, meta)
  {
    if |fields| == 0 then []
    else [FieldValue(fields[0], id, user, meta)] + FieldValues(fields[1..], id, user, meta)
  }

  /** The field block is the rendering of the field columns. */
  lemma {:induction false} FieldBlockCells(fields: seq<Field>, id: UserId, user: User, meta: Meta)
    ensures FieldValues(fields, id, user, meta) == RowCells(FieldColumns(fields), id, user, meta)
  {
    if |fields| > 0 {
      assert FieldColumns(fields)[1..] == FieldColumns(fields[1..]);
      FieldBlockCells(fields[1..], id, user, meta);
    }
  }

  /** A user's row over the layout, split at the groups the row builder appends. */
  lemma RowCellsLayout(fields: seq<Field>, s: Settings, id: UserId, user: User, meta: Meta)
    ensures RowCells(Layout(fields, s), id, user, meta)
      == [Decimal.Show(user.id), user.login] + FieldValues(fields, id, user, meta)
         + RowCells(ActivationColumns(s), id, user, meta)
         + RowCells(ExpirationColumns(s), id, user, meta)
         + [user.registered, Lookup(meta, id, "wpmem_reg_ip")]
  {
    var front := [UserIdColumn, UsernameColumn] + FieldColumns(fields);
    var mid := front + ActivationColumns(s);
    var back := mid + ExpirationColumns(s);
    RowCellsAppend(back, [RegisteredColumn, IpColumn], id, user, meta);
    RowCellsAppend(mid, ExpirationColumns(s), id, user, meta);
    RowCellsAppend(front, ActivationColumns(s), id, user, meta);
    RowCellsAppend([UserIdColumn, UsernameColumn], FieldColumns(fields), id, user, meta);
    FieldBlockCells(fields, id, user, meta);
  }

  /** The cells of the two optional column groups. */
  lemma OptionalCells(s: Settings, id: UserId, user: User, meta: Meta)
    ensures RowCells(ActivationColumns(s), id, user, meta)
      == if ShowActivation(s) then [if Truthy(Lookup(meta, id, "active")) then "Yes" else "No"] else []
    ensures RowCells(ExpirationColumns(s), id, user, meta)
      == if ShowExpiration(s) then [Lookup(meta, id, "exp_type"), Lookup(meta, id, "expires")] else []
  {
  }

  /** One user's data record, appended to column by column. */
  method BuildRow(fields: seq<Field>, s: Settings, id: UserId, user: User, meta: Meta) returns (row: seq<string>)
    ensures row == RowCells(Layout(fields, s), id, user, meta)
  {
    var block := FieldValues(fields, id, user, meta);
    row := [Decimal.Show(user.id), user.login] + block;
    ghost var front, activation, expiration := row, [], [];
    if ShowActivation(s) {
      var cell := if Truthy(Lookup(meta, id, "active")) then "Yes" else "No";
      row := row + [cell];
      activation := [cell];
    }
    if ShowExpiration(s) {
      var subscription, expires := Lookup(meta, id, "exp_type"), Lookup(meta, id, "expires");
      row := row + [subscription];
      row := row + [expires];
      expiration := [subscription, expires];
    }
    var registered, ip := user.registered, Lookup(meta, id, "wpmem_reg_ip");
    row := row + [registered];
    row := row + [ip];
    assert row == front + activation + expiration + [registered, ip];
    OptionalCells(s, id, user, meta);
    RowCellsLayout(fields, s, id, user, meta);
  }

  /**
   * A worked case: fields Email (identity key) and Phone (metadata key), no
   * exclusions, and both optional column groups off.
   */
  lemma EmailPhoneHeader()
    ensures var fields := [Field(0, "Email", "user_email"), Field(1, "Phone", "phone")];
      HeaderCells(Layout(FieldFilter.EffectiveFields(fields, []), Settings(0, 0, false)))
        == ["User ID", "Username", "Email", "Phone", "Registered", "IP"]
  {
    var fields := [Field(0, "Email", "user_email"), Field(1, "Phone", "phone")];
    FieldFilter.NothingExcluded(fields);
    var cols := Layout(fields, Settings(0, 0, false));
    assert cols == [UserIdColumn, UsernameColumn, FieldColumn(fields[0]), FieldColumn(fields[1]), RegisteredColumn, IpColumn];
    forall i | 0 <= i < 6
      ensures HeaderCells(cols)[i] == HeaderOf(cols[i])
    {
      HeaderCellsAt(cols, i);
    }
  }

  /**
   * The same case for user 1, "alice", with e-mail a@b.com and no metadata:
   * the Phone cell and the IP cell are empty.
   */
  lemma EmailPhoneRow(registered: string)
    ensures var fields := [Field(0, "Email", "user_email"), Field(1, "Phone", "phone")];
      var user := User(1, "alice", "a@b.com", "alice", "", "Alice", registered);
      RowCells(Layout(FieldFilter.EffectiveFields(fields, []), Settings(0, 0, false)), 1, user, map[])
        == ["1", "alice", "a@b.com", "", registered, ""]
  {
    var fields := [Field(0, "Email", "user_email"), Field(1, "Phone", "phone")];
    var user := User(1, "alice", "a@b.com", "alice", "", "Alice", registered);
    FieldFilter.NothingExcluded(fields);
    var cols := Layout(fields, Settings(0, 0, false));
    assert cols == [UserIdColumn, UsernameColumn, FieldColumn(fields[0]), FieldColumn(fields[1]), RegisteredColumn, IpColumn];
    assert Decimal.Show(1) == "1";
    assert IsIdentityKey("user_email");
    assert !IsIdentityKey("phone");
    forall i | 0 <= i < 6
      ensures RowCells(cols, 1, user, map[])[i] == CellOf(cols[i], 1, user, map[])
    {
      RowCellsAt(cols, 1, user, map[], i);
    }
  }
}
