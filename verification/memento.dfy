/** The Memento demo: mouse settings with four fields, and named presets that copy those
    fields and later write them back into the settings they came from. */
module Memento {

  /** A colour as its ARGB value; it is only ever copied. */
  datatype Color = Color(argb: int)

  const AliceBlue := Color(0xFFF0F8FF)

  /** The four settings fields, taken together. */
  datatype Values = Values(sensitivity: real, rgbColor: Color, rgbEnabled: bool, dpi: int)

  const Defaults := Values(1.0, AliceBlue, true, 800)

  class MouseSettings {
    var sensitivity: real
    var rgbColor: Color
    var rgbEnabled: bool
    var dpi: int

    function Current(): Values
      reads this
    {
      Values(sensitivity, rgbColor, rgbEnabled, dpi)
    }

    constructor ()
      ensures Current() == Defaults
    {
      sensitivity := 1.0;
      rgbColor := AliceBlue;
      rgbEnabled := true;
      dpi := 800;
    }

    /** A snapshot of the current fields, under the given name. */
    method SavePreset(name: string) returns (preset: MouseSettingsPreset)
      ensures fresh(preset)
      ensures preset.settings == this && preset.Name == name
      ensures preset.Saved() == Current()
    {
      preset := new MouseSettingsPreset(this, name);
    }

    method SetSensetivity(value: real)
      modifies this
      ensures Current() == old(Current()).(sensitivity := value)
    {
      sensitivity := value;
    }

    method SetRgbColor(value: Color)
      modifies this
      ensures Current() == old(Current()).(rgbColor := value)
    {
      rgbColor := value;
    }

    method SetRgb(enabled: bool)
      modifies this
      ensures Current() == old(Current()).(rgbEnabled := enabled)
    {
      rgbEnabled := enabled;
    }

    method SetDpi(dpi: int)
      modifies this
      ensures Current() == old(Current()).(dpi := dpi)
    {
      this.dpi := dpi;
    }
  }

  class MouseSettingsPreset {
    var Name: string
    const settings: MouseSettings
    var sensitivity: real
    var rgbColor: Color
    var rgbEnabled: bool
    var dpi: int

    /** The values this preset holds. */
    function Saved(): Values
      reads this
    {
      Values(sensitivity, rgbColor, rgbEnabled, dpi)
    }

    constructor (settings: MouseSettings, name: string)
      ensures this.settings == settings && Name == name
      ensures Saved() == settings.Current()
    {
      this.settings := settings;
      sensitivity := settings.sensitivity;
      rgbColor := settings.rgbColor;
      rgbEnabled := settings.rgbEnabled;
      dpi := settings.dpi;
      Name := name;
    }

    /** Writes the saved values back into the settings the preset came from. The result
        depends on the preset alone, so restoring twice is the same as restoring once and
        the last of several restores wins; the preset itself is left as it was. */
    method Restore()
      modifies settings
      ensures settings.Current() == Saved()
    {
      settings.sensitivity := sensitivity;
      settings.rgbColor := rgbColor;
      settings.rgbEnabled := rgbEnabled;
      settings.dpi := dpi;
    }
  }

  /** The demo run: save "default", change three fields, save "my_preset", then restore
      "default" and "my_preset" in that order. */
  method Demo() returns (settings: MouseSettings, defaultPreset: MouseSettingsPreset,
                         customPreset: MouseSettingsPreset)
    ensures defaultPreset.Name == "default" && defaultPreset.Saved() == Defaults
    ensures customPreset.Name == "my_preset"
    ensures customPreset.Saved() == Values(1.78, AliceBlue, false, 400)
    ensures settings.Current() == customPreset.Saved()
  {
    settings := new MouseSettings();
    defaultPreset := settings.SavePreset("default");

    settings.SetRgb(false);
    settings.SetSensetivity(1.78);
    settings.SetDpi(400);

    customPreset := settings.SavePreset("my_preset");

    defaultPreset.Restore();
    assert settings.Current() == Defaults;
    customPreset.Restore();
  }
}
