/** Connection settings. Every window computation relies on `Valid`. */
module Settings {
  import opened Basics

  /** `usizeMax` is the largest `usize` of the platform, at least that of 32 bits. */
  datatype Settings = Settings(
    maxConnectionReceiveWindow: Option<nat>,
    maxNumStreams: nat,
    readAfterClose: bool,
    splitSendSize: nat,
    usizeMax: nat)
  {
    /** The limit on all receive windows together; none means the largest `usize`. */
    function Limit(): nat {
      if maxConnectionReceiveWindow.Some? then maxConnectionReceiveWindow.value else usizeMax
    }

    predicate Valid() {
      U32_MAX <= usizeMax && maxNumStreams * DEFAULT_CREDIT <= Limit() <= usizeMax
    }

    /** What the streams may add to their guaranteed windows, all together. */
    function Spare(): int {
      Limit() - maxNumStreams * DEFAULT_CREDIT
    }
  }

  /** What the setters assert in a build whose `usize` products wrap around. */
  predicate WrappedAssertion(s: Settings) {
    s.Limit() >= (s.maxNumStreams * DEFAULT_CREDIT) % (s.usizeMax + 1)
  }

  /** There the assertion says what it is meant to say unless the product wraps to something the limit covers. */
  lemma WrapsExactly(s: Settings)
    requires U32_MAX <= s.usizeMax && s.Limit() <= s.usizeMax
    ensures (WrappedAssertion(s) <==> s.Valid()) <==>
            s.maxNumStreams * DEFAULT_CREDIT <= s.usizeMax || s.Limit() < (s.maxNumStreams * DEFAULT_CREDIT) % (s.usizeMax + 1)
  {
    if s.maxNumStreams * DEFAULT_CREDIT <= s.usizeMax {
      SmallRemainder(s.maxNumStreams * DEFAULT_CREDIT, s.usizeMax + 1);
    }
  }

  lemma SmallRemainder(x: nat, m: nat)
    requires x < m
    ensures x % m == x
  {
  }

  /** On 64 bits, 2^46 streams pass it. */
  lemma WrapPasses()
    ensures var s := Settings(None, 0x4000_0000_0000, true, 1, 0xFFFF_FFFF_FFFF_FFFF); WrappedAssertion(s) && !s.Valid()
  {
  }

  /**
    A setter goes through: in a build that checks overflow the product must fit and meet the
    assertion, in one that does not the wrapped product must.
  */
  predicate Passes(s: Settings, checked: bool) {
    if checked then s.maxNumStreams * DEFAULT_CREDIT <= s.usizeMax && s.Limit() >= s.maxNumStreams * DEFAULT_CREDIT
    else WrappedAssertion(s)
  }

  /** With overflow checks that is validity; without, up to `WrapsExactly`. */
  lemma PassesExactly(s: Settings, checked: bool)
    requires U32_MAX <= s.usizeMax && s.Limit() <= s.usizeMax
    ensures (Passes(s, checked) <==> s.Valid()) <==>
            checked || s.maxNumStreams * DEFAULT_CREDIT <= s.usizeMax || s.Limit() < (s.maxNumStreams * DEFAULT_CREDIT) % (s.usizeMax + 1)
  {
    WrapsExactly(s);
  }

  /**
    The builder of the source: a setter assigns, multiplies, then asserts; `ok` is false when it panics.
    `checked`: the build checks `usize` arithmetic for overflow.
  */
  class Config {
    var maxConnectionReceiveWindow: Option<nat>
    var maxNumStreams: nat
    var readAfterClose: bool
    var splitSendSize: nat
    const usizeMax: nat
    const checked: bool

    function Value(): Settings
      reads this
    {
      Settings(maxConnectionReceiveWindow, maxNumStreams, readAfterClose, splitSendSize, usizeMax)
    }

    /** `Config::default`: 1 GiB, 512 streams, read after close, frames of 16 KiB. */
    constructor (usizeMax: nat, checked: bool)
      requires U32_MAX <= usizeMax
      ensures this.checked == checked
      ensures Value() == Settings(Some(1024 * 1024 * 1024), 512, true, 16 * 1024, usizeMax) && Value().Valid()
    {
      maxConnectionReceiveWindow, maxNumStreams := Some(1024 * 1024 * 1024), 512;
      readAfterClose, splitSendSize := true, 16 * 1024;
      this.usizeMax, this.checked := usizeMax, checked;
    }

    /** The assertion both setters end with. */
    method Asserts() returns (ok: bool)
      requires U32_MAX <= usizeMax && Value().Limit() <= usizeMax
      ensures ok <==> Passes(Value(), checked)
      ensures checked || maxNumStreams * DEFAULT_CREDIT <= usizeMax ==> (ok <==> Value().Valid())
    {
      var product := maxNumStreams * DEFAULT_CREDIT;
      PassesExactly(Value(), checked);
      if checked && product > usizeMax {
        return false;
      }
      if product > usizeMax {
        product := product % (usizeMax + 1);
      } else {
        SmallRemainder(product, usizeMax + 1);
      }
      ok := Value().Limit() >= product;
    }

    method SetMaxConnectionReceiveWindow(n: Option<nat>) returns (ok: bool)
      requires U32_MAX <= usizeMax && (n.Some? ==> n.value <= usizeMax)
      modifies this
      ensures Value() == old(Value()).(maxConnectionReceiveWindow := n)
      ensures ok <==> Passes(Value(), checked)
      ensures checked || maxNumStreams * DEFAULT_CREDIT <= usizeMax ==> (ok <==> Value().Valid())
    {
      maxConnectionReceiveWindow := n;
      ok := Asserts();
    }

    method SetMaxNumStreams(n: nat) returns (ok: bool)
      requires U32_MAX <= usizeMax && Value().Limit() <= usizeMax && n <= usizeMax
      modifies this
      ensures Value() == old(Value()).(maxNumStreams := n)
      ensures ok <==> Passes(Value(), checked)
      ensures checked || n * DEFAULT_CREDIT <= usizeMax ==> (ok <==> Value().Valid())
    {
      maxNumStreams := n;
      ok := Asserts();
    }

    method SetSplitSendSize(n: nat)
      modifies this
      ensures Value() == old(Value()).(splitSendSize := n)
      ensures Value().Valid() <==> old(Value()).Valid()
    {
      splitSendSize := n;
    }

    method SetReadAfterClose(b: bool)
      modifies this
      ensures Value() == old(Value()).(readAfterClose := b)
      ensures Value().Valid() <==> old(Value()).Valid()
    {
      readAfterClose := b;
    }
  }
}
