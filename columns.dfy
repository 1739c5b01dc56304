/**
 * The column layout shared by the header and every data row: what each
 * column is, its header text and the cell a user gets in it.
 */
module Columns {
  import opened Users
  import opened ExportArgs
  import Decimal

  /** The two plugin settings and the constant that switch optional columns on. */
  datatype Settings = Settings(modReg: int, useExp: int, expModuleDefined: bool)

  /** Moderated registration: the "Activated?" column. */
  predicate ShowActivation(s: Settings) {
    s.modReg == 1
  }

  /** Expiration module present and enabled: the "Subscription" and "Expires" columns. */
  predicate ShowExpiration(s: Settings) {
    s.expModuleDefined && s.useExp == 1
  }

  datatype Column =
    | UserIdColumn
    | UsernameColumn
    | FieldColumn(field: Field)
    | ActivatedColumn
    | SubscriptionColumn
    | ExpiresColumn
    | RegisteredColumn
    | IpColumn

  function FieldColumns(fields: seq<Field>): (cols: seq<Column>)
  {
    seq(|fields|, i requires 0 <= i < |fields| => FieldColumn(fields[i]))
  }

  function ActivationColumns(s: Settings): seq<Column> {
    if ShowActivation(s) then [ActivatedColumn] else []
  }

  function ExpirationColumns(s: Settings): seq<Column> {
    if ShowExpiration(s) then [SubscriptionColumn, ExpiresColumn] else []
  }

  /** The columns of the export, in output order, for the effective fields. */
  function Layout(fields: seq<Field>, s: Settings): seq<Column>
  {
    [UserIdColumn, UsernameColumn]
    + FieldColumns(fields)
    + ActivationColumns(s)
    + ExpirationColumns(s)
    + [RegisteredColumn, IpColumn]
  }

  /**
   * Where each column sits: the identity pair first, field i at 2 + i, the
   * optional columns present exactly when their setting is on, and the
   * registration pair last; the width is 2 + |fields| + (0 or 1) + (0 or 2) + 2.
   */
  lemma LayoutPositions(fields: seq<Field>, s: Settings)
    ensures var cols, n := Layout(fields, s), |fields|;
      var a := if ShowActivation(s) then 1 else 0;
      var e := if ShowExpiration(s) then 2 else 0;
      |cols| == 2 + n + a + e + 2 &&
      cols[0] == UserIdColumn && cols[1] == UsernameColumn &&
      (forall i :: 0 <= i < n ==> cols[2 + i] == FieldColumn(fields[i])) &&
      (ShowActivation(s) ==> cols[2 + n] == ActivatedColumn) &&
      (ShowExpiration(s) ==> cols[2 + n + a] == SubscriptionColumn && cols[3 + n + a] == ExpiresColumn) &&
      cols[|cols| - 2] == RegisteredColumn && cols[|cols| - 1] == IpColumn &&
      (ActivatedColumn in cols <==> ShowActivation(s)) &&
      (SubscriptionColumn in cols <==> ShowExpiration(s)) &&
      (ExpiresColumn in cols <==> ShowExpiration(s))
  {
  }

  /** The header text of a column. */
  function HeaderOf(c: Column): string {
    match c
    case UserIdColumn => "User ID"
    case UsernameColumn => "Username"
    case FieldColumn(f) => f.heading
    case ActivatedColumn => "Activated?"
    case SubscriptionColumn => "Subscription"
    case ExpiresColumn => "Expires"
    case RegisteredColumn => "Registered"
    case IpColumn => "IP"
  }

  /**
   * The value of one requested field for a user: the four identity keys read
   * the directory's record, every other key reads the metadata store.
   */
  function FieldValue(f: Field, id: UserId, user: User, meta: Meta): string {
    if IsIdentityKey(f.key) then IdentityAttr(user, f.key) else Lookup(meta, id, f.key)
  }

  /** Each field reads exactly one of the two stores, and never the other. */
  lemma FieldValueSource(f: Field, id: UserId, user: User, user2: User, meta: Meta, meta2: Meta)
    ensures IsIdentityKey(f.key) ==> FieldValue(f, id, user, meta) == FieldValue(f, id, user, meta2)
    ensures !IsIdentityKey(f.key) ==> FieldValue(f, id, user, meta) == FieldValue(f, id, user2, meta)
  {
  }

  /** The cell a user gets in a column. */
  function CellOf(c: Column, id: UserId, user: User, meta: Meta): string {
    match c
    case UserIdColumn => Decimal.Show(user.id)
    case UsernameColumn => user.login
    case FieldColumn(f) => FieldValue(f, id, user, meta)
    case ActivatedColumn => if Truthy(Lookup(meta, id, "active")) then "Yes" else "No"
    case SubscriptionColumn => Lookup(meta, id, "exp_type")
    case ExpiresColumn => Lookup(meta, id, "expires")
    case RegisteredColumn => user.registered
    case IpColumn => Lookup(meta, id, "wpmem_reg_ip")
  }

  /** The header record for a layout. */
  function HeaderCells(cols: seq<Column>): (r: seq<string>)
    ensures |r| == |cols|
  {
    if |cols| == 0 then [] else [HeaderOf(cols[0])] + HeaderCells(cols[1..])
  }

  /** The data record of one user for a layout. */
  function RowCells(cols: seq<Column>, id: UserId, user: User, meta: Meta): (r: seq<string>)
    ensures |r| == |cols|
  {
    if |cols| == 0 then [] else [CellOf(cols[0], id, user, meta)] + RowCells(cols[1..], id, user, meta)
  }

  /** Cell i of a user's row is that user's cell in column i. */
  lemma {:induction false} RowCellsAt(cols: seq<Column>, id: UserId, user: User, meta: Meta, i: nat)
    requires i < |cols|
    ensures RowCells(cols, id, user, meta)[i] == CellOf(cols[i], id, user, meta)
  {
    if i > 0 {
      RowCellsAt(cols[1..], id, user, meta, i - 1);
    }
  }

  /** Cell i of the header is column i's header text. */
  lemma {:induction false} HeaderCellsAt(cols: seq<Column>, i: nat)
    requires i < |cols|
    ensures HeaderCells(cols)[i] == HeaderOf(cols[i])
  {
    if i > 0 {
      HeaderCellsAt(cols[1..], i - 1);
    }
  }

  /** Rendering a row column by column: the cells of `a + b` are those of `a`, then those of `b`. */
  lemma {:induction false} RowCellsAppend(a: seq<Column>, b: seq<Column>, id: UserId, user: User, meta: Meta)
    ensures RowCells(a + b, id, user, meta) == RowCells(a, id, user, meta) + RowCells(b, id, user, meta)
  {
    if |a| == 0 {
      assert a + b == b;
    } else {
      assert (a + b)[1..] == a[1..] + b;
      RowCellsAppend(a[1..], b, id, user, meta);
    }
  }

  /** Rendering the header column by column. */
  lemma {:induction false} HeaderCellsAppend(a: seq<Column>, b: seq<Column>)
    ensures HeaderCells(a + b) == HeaderCells(a) + HeaderCells(b)
  {
    if |a| == 0 {
      assert a + b == b;
    } else {
      assert (a + b)[1..] == a[1..] + b;
      HeaderCellsAppend(a[1..], b);
    }
  }

  /** Whether a column's cell is read from metadata key `key`. */
  predicate ReadsKey(c: Column, key: string) {
    match c
    case FieldColumn(f) => f.key == key && !IsIdentityKey(f.key)
    case ActivatedColumn => key == "active"
    case SubscriptionColumn => key == "exp_type"
    case ExpiresColumn => key == "expires"
    case IpColumn => key == "wpmem_reg_ip"
    case _ => false
  }

  /**
   * Two metadata stores that agree on every key the layout reads for this user
   * give the same row.
   */
  lemma {:induction false} RowCellsFrame(cols: seq<Column>, id: UserId, user: User, meta: Meta, meta2: Meta)
    requires forall c, key :: c in cols && ReadsKey(c, key) ==> Lookup(meta, id, key) == Lookup(meta2, id, key)
    ensures RowCells(cols, id, user, meta) == RowCells(cols, id, user, meta2)
  {
    if |cols| > 0 {
      assert forall x :: x in cols[1..] ==> x in cols;
      RowCellsFrame(cols[1..], id, user, meta, meta2);
      var c := cols[0];
      match c
      case FieldColumn(f) =>
        if !IsIdentityKey(f.key) {
          assert ReadsKey(c, f.key);
        }
      case ActivatedColumn => assert ReadsKey(c, "active");
      case SubscriptionColumn => assert ReadsKey(c, "exp_type");
      case ExpiresColumn => assert ReadsKey(c, "expires");
      case IpColumn => assert ReadsKey(c, "wpmem_reg_ip");
      case _ =>
    }
  }

  /** Header and data rows have one cell per column, so they line up. */
  lemma RowMatchesHeader(fields: seq<Field>, s: Settings, id: UserId, user: User, meta: Meta)
    ensures var cols := Layout(fields, s);
      |RowCells(cols, id, user, meta)| == |HeaderCells(cols)| == 2 + |fields| + (if ShowActivation(s) then 1 else 0) + (if ShowExpiration(s) then 2 else 0) + 2
  {
    LayoutPositions(fields, s);
  }
}
