/** A printer that print requests can be sent to: a mutable record of a
    hostname, the label type it supports, its printer type and a file path. */
module PrinterModel {
  import opened JavaLang

  /** The referenced model types; the printer only stores and compares them. */
  type LabelType(==)
  type PrinterType(==)
  type Path(==)

  /** The domain appended to a bare hostname to make a network address. */
  const InternalDomain: string := ".internal.sanger.ac.uk"

  /** The address rule of getAddress for a non-null hostname: a hostname
      without a dot is qualified with the internal domain, any other is
      already an address. */
  function AddressOf(hostname: string): (address: string)
    ensures hostname <= address
    ensures '.' in address
    ensures '.' in hostname ==> address == hostname
    ensures '.' !in hostname ==> address[|hostname|..] == InternalDomain
  {
    if IndexOf(hostname, '.') < 0 then hostname + InternalDomain else hostname
  }

  /** The four fields of a printer as one value. */
  datatype PrinterState = PrinterState(
    hostname: Nullable<string>,
    labelType: Nullable<LabelType>,
    printerType: Nullable<PrinterType>,
    path: Nullable<Path>)

  class Printer {
    var hostname: Nullable<string>
    var labelType: Nullable<LabelType>
    var printerType: Nullable<PrinterType>
    var path: Nullable<Path>

    /** The current field values. */
    function State(): PrinterState
      reads this
    {
      PrinterState(hostname, labelType, printerType, path)
    }

    /** A printer with Java's default value, null, in every field. */
    constructor Default()
      ensures State() == PrinterState(Null, Null, Null, Null)
    {
      hostname, labelType, printerType, path := Null, Null, Null, Null;
    }

    /** A printer with the given fields; note that the printer type is
        passed before the label type. */
    constructor (hostname: Nullable<string>, printerType: Nullable<PrinterType>,
                 labelType: Nullable<LabelType>, path: Nullable<Path>)
      ensures this.hostname == hostname && this.printerType == printerType
      ensures this.labelType == labelType && this.path == path
    {
      this.hostname := hostname;
      this.printerType := printerType;
      this.labelType := labelType;
      this.path := path;
    }

    function GetHostname(): (r: Nullable<string>)
      reads this
      ensures r == State().hostname
    {
      hostname
    }

    method SetHostname(hostname: Nullable<string>)
      modifies this
      ensures GetHostname() == hostname
      ensures State() == old(State()).(hostname := hostname)
    {
      this.hostname := hostname;
    }

    function GetPrinterType(): (r: Nullable<PrinterType>)
      reads this
      ensures r == State().printerType
    {
      printerType
    }

    method SetPrinterType(printerType: Nullable<PrinterType>)
      modifies this
      ensures GetPrinterType() == printerType
      ensures State() == old(State()).(printerType := printerType)
    {
      this.printerType := printerType;
    }

    function GetLabelType(): (r: Nullable<LabelType>)
      reads this
      ensures r == State().labelType
    {
      labelType
    }

    method SetLabelType(labelType: Nullable<LabelType>)
      modifies this
      ensures GetLabelType() == labelType
      ensures State() == old(State()).(labelType := labelType)
    {
      this.labelType := labelType;
    }

    function GetPath(): (r: Nullable<Path>)
      reads this
      ensures r == State().path
    {
      path
    }

    method SetPath(path: Nullable<Path>)
      modifies this
      ensures GetPath() == path
      ensures State() == old(State()).(path := path)
    {
      this.path := path;
    }

    /** getAddress: the hostname, qualified with the internal domain when it
        holds no dot; dereferencing a null hostname throws. */
    function GetAddress(): (r: Result<string>)
      reads this
      ensures r.NullPointerException? <==> hostname.Null?
      ensures r.Ok? ==> hostname.value <= r.value && '.' in r.value
      ensures r.Ok? && '.' in hostname.value ==> r.value == hostname.value
      ensures r.Ok? && '.' !in hostname.value ==> r.value == hostname.value + InternalDomain
    {
      match hostname
      case Null => NullPointerException
      case NonNull(h) => Ok(AddressOf(h))
    }

    /** equals(Object): the same object, or another Printer whose four
        fields are pairwise equal by Objects.equals. */
    function Equals(o: object?): (r: bool)
      reads this, o
      ensures r <==> o is Printer && (o as Printer).State() == State()
    {
      if this == o then true
      else if o == null || !(o is Printer) then false
      else
        var that := o as Printer;
        ObjectsEquals(hostname, that.hostname)
        && ObjectsEquals(labelType, that.labelType)
        && ObjectsEquals(printerType, that.printerType)
        && ObjectsEquals(path, that.path)
    }

    /** hashCode(): the hostname's hash, 0 for a null hostname. */
    function HashCode(): (h: int)
      reads this
      ensures IsInt32(h)
      ensures hostname.Null? ==> h == 0
      ensures hostname.NonNull? ==> h == ToInt32(HashPolynomial(hostname.value))
    {
      StringHashCodeIsPolynomial(if hostname.Null? then "" else hostname.value);
      if hostname.Null? then 0 else StringHashCode(hostname.value)
    }
  }

  /** The address rule is a fixpoint on its own output, so an address is
      never qualified twice. */
  lemma AddressIsFixpoint(hostname: string)
    ensures AddressOf(AddressOf(hostname)) == AddressOf(hostname)
  {
  }

  lemma EqualsReflexive(p: Printer)
    ensures p.Equals(p)
  {
  }

  lemma EqualsSymmetric(p: Printer, q: Printer)
    ensures p.Equals(q) <==> q.Equals(p)
  {
  }

  lemma EqualsTransitive(p: Printer, q: Printer, s: Printer)
    requires p.Equals(q) && q.Equals(s)
    ensures p.Equals(s)
  {
  }

  /** No printer equals null. */
  lemma EqualsNullIsFalse(p: Printer)
    ensures !p.Equals(null)
  {
  }

  /** equals and hashCode agree: equal printers hash alike. */
  lemma EqualsImpliesEqualHashCode(p: Printer, q: Printer)
    requires p.Equals(q)
    ensures p.HashCode() == q.HashCode()
  {
  }

  /** The hash depends on the hostname alone: printers that differ only in
      label type, printer type or path hash alike. */
  lemma HashCodeDependsOnlyOnHostname(p: Printer, q: Printer)
    requires p.hostname == q.hostname
    ensures p.HashCode() == q.HashCode()
  {
  }
}
