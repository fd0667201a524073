/** The read-only rules of store/admin.py: which delivery fields the admin
    may still edit, and the client total of a delivery line, which it never
    may. */
module Admin {
  import opened Models
  import Deliveries

  /** The admin form fields the rules speak of. */
  datatype Field = DateAdded | SubTotal | TaxPercentage | TaxAmount | GrandTotal | AmountPaid | AmountChange
                 | LineItem | LineQuantity | LinePrice | TotalDetail

  /** `DeliveryAdmin.readonly_fields`, the class-level default. */
  const DeliveryReadOnly: seq<Field> := [DateAdded]

  /** The fields `get_readonly_fields` adds once a delivery is delivered. */
  const LockedWhenDelivered: seq<Field> := [SubTotal, TaxAmount, GrandTotal, AmountPaid, AmountChange]

  /** The fields of the 'Détails Financiers' fieldset. */
  const FinancialFieldset: seq<Field> := [SubTotal, TaxPercentage, TaxAmount, GrandTotal, AmountPaid, AmountChange]

  /** The fields the delivery page's inline shows for each delivery line. */
  const DetailInlineFields: seq<Field> := [LineItem, LineQuantity, LinePrice, TotalDetail]

  /** `readonly_fields` of both `DeliveryDetailInline` and `DeliveryDetailAdmin`. */
  const DetailInlineReadOnly: seq<Field> := [TotalDetail]
  const DetailAdminReadOnly: seq<Field> := [TotalDetail]

  /** `get_readonly_fields`: a copy of the class default, extended with the
      financial fields when the edited delivery is delivered. */
  function ReadOnlyFields(obj: Option<Delivery>): (r: seq<Field>)
    ensures DeliveryReadOnly <= r
    ensures obj.None? || obj.value.status == NotDelivered ==> r == DeliveryReadOnly
    ensures obj.Some? && obj.value.status == Delivered ==>
              r == [DateAdded, SubTotal, TaxAmount, GrandTotal, AmountPaid, AmountChange]
  {
    if obj.Some? && obj.value.status == Delivered then DeliveryReadOnly + LockedWhenDelivered
    else DeliveryReadOnly
  }

  /** Exactly date_added is read-only until the delivery is delivered;
      from then on the five locked financial fields are too, and
      tax_percentage, though in the same fieldset, stays editable. */
  lemma ReadOnlyMembers(obj: Option<Delivery>, f: Field)
    ensures obj.None? || obj.value.status == NotDelivered ==> (f in ReadOnlyFields(obj) <==> f == DateAdded)
    ensures obj.Some? && obj.value.status == Delivered ==>
              (f in ReadOnlyFields(obj) <==> f == DateAdded || f in LockedWhenDelivered)
    ensures TaxPercentage in FinancialFieldset && TaxPercentage !in ReadOnlyFields(obj)
  {
  }

  /** A delivery the confirmation view has just confirmed has its financial
      figures locked in the admin, where it was fully editable before. */
  lemma ConfirmationLocksFinancials(db: Db, id: Id, receiptOk: bool)
    requires Deliveries.ConfirmDelivery(db, id, receiptOk).response.Success?
    ensures ReadOnlyFields(Deliveries.FindDelivery(db.deliveries, id)) == DeliveryReadOnly
    ensures var after := Deliveries.FindDelivery(Deliveries.ConfirmDelivery(db, id, receiptOk).db.deliveries, id);
            && after.Some?
            && (forall f <- LockedWhenDelivered :: f in ReadOnlyFields(after))
            && TaxPercentage !in ReadOnlyFields(after)
  {
    Deliveries.ConfirmMarksDelivered(db, id, receiptOk);
  }

  /** The client's line total is never editable, neither among the inline
      lines of a delivery nor on a delivery line's own page, while the
      inline's item, quantity and price stay editable. */
  lemma TotalDetailReadOnly(f: Field)
    ensures f in DetailInlineReadOnly <==> f == TotalDetail
    ensures f in DetailAdminReadOnly <==> f == TotalDetail
    ensures f in DetailInlineFields && f != TotalDetail ==> f !in DetailInlineReadOnly
  {
  }
}
