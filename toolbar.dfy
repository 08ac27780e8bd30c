/** The floating toolbar as the object its handlers update in place: the
    flags `isEditing` and `isDragging` and the `settings` record, with a
    ghost copy of what storage holds. */
module QuickFormatting {
  import opened Wrappers
  import opened ToolbarState
  import TagInsertion
  import Zoom

  class Toolbar {
    var editing: bool
    var dragging: bool
    var settings: Settings
    ghost var saved: Option<Settings>

    /** The toolbar's state as a value. */
    ghost function Abstract(): ToolbarState.State
      reads this
    {
      State(editing, dragging, settings, saved)
    }

    /** Outside edit mode the toolbar stands where a reload would put it. */
    ghost predicate Valid()
      reads this
    {
      PositionPersisted(Abstract())
    }

    /** Start-up: the stored settings when storage holds some, otherwise the
        defaults. */
    constructor (stored: Option<Settings>)
      ensures Valid() && Abstract() == Load(stored)
    {
      editing := false;
      dragging := false;
      settings := stored.GetOr(DefaultSettings);
      saved := stored;
    }

    method ToggleEditMode(enable: bool)
      requires Valid()
      modifies this
      ensures Valid() && Abstract() == ToolbarState.ToggleEditMode(old(Abstract()), enable)
    {
      editing := enable;
      if !editing {
        saved := Some(settings);
      }
    }

    method HandleZoomOut()
      requires Valid()
      modifies this
      ensures Valid() && Abstract() == ZoomOutPressed(old(Abstract()))
    {
      settings := settings.(scale := Zoom.ZoomOut(settings.scale));
    }

    method HandleZoomIn()
      requires Valid()
      modifies this
      ensures Valid() && Abstract() == ZoomInPressed(old(Abstract()))
    {
      settings := settings.(scale := Zoom.ZoomIn(settings.scale));
    }

    method HandleStart()
      requires Valid()
      modifies this
      ensures Valid() && Abstract() == ToolbarState.HandleStart(old(Abstract()))
    {
      if !editing {
        return;
      }
      dragging := true;
    }

    method HandleMove(clientX: int, clientY: int)
      requires Valid()
      modifies this
      ensures Valid() && Abstract() == ToolbarState.HandleMove(old(Abstract()), clientX, clientY)
    {
      if !dragging || !editing {
        return;
      }
      settings := settings.(x := Px(clientX), y := Px(clientY));
    }

    method HandleEnd()
      requires Valid()
      modifies this
      ensures Valid() && Abstract() == ToolbarState.HandleEnd(old(Abstract()))
    {
      dragging := false;
    }

    /** `insertTag`: in edit mode, or when there is no text box, nothing
        happens; otherwise the box gets the focus and its selection is
        wrapped in the two tags as `Wrap` describes. */
    method InsertTag(box: TagInsertion.TextArea?, startTag: string, endTag: string)
      requires box != null ==> box.Valid()
      modifies box
      ensures box != null ==> box.Valid()
      ensures box != null && editing ==>
                box.Snapshot() == old(box.Snapshot()) && box.focused == old(box.focused)
      ensures box != null && !editing ==>
                box.focused &&
                box.Snapshot() == TagInsertion.Wrap(old(box.value), old(box.selectionStart),
                                                    old(box.selectionEnd), startTag, endTag)
    {
      if editing {
        return;
      }
      if box == null {
        return;
      }
      box.Focus();
      var start := box.selectionStart;
      var end := box.selectionEnd;
      var fullText := box.value;
      var selectedText := fullText[start..end];
      var replacement := startTag + selectedText + endTag;
      box.SetRangeText(replacement, start, end);
      var newCursorPos := start + |startTag| + |selectedText|;
      if start == end {
        box.SetSelectionRange(start + |startTag|, start + |startTag|);
      } else {
        box.SetSelectionRange(start + |startTag|, newCursorPos);
      }
      TagInsertion.WrapAsRangeText(fullText, start, end, startTag, endTag);
    }
  }

  /** A drag in edit mode, then SAVE: the toolbar ends up at the last pointer
      position, out of edit mode, with that position stored. */
  method DragAndSave(bar: Toolbar, x1: int, y1: int, x2: int, y2: int)
    requires bar.Valid()
    modifies bar
    ensures bar.Valid() && !bar.editing && !bar.dragging
    ensures bar.settings == old(bar.settings).(x := Px(x2), y := Px(y2))
    ensures bar.saved == Some(bar.settings)
  {
    bar.ToggleEditMode(true);
    bar.HandleStart();
    bar.HandleMove(x1, y1);
    bar.HandleMove(x2, y2);
    bar.HandleEnd();
    bar.ToggleEditMode(false);
  }
}
